/**
 The seal, resume and handback commands as the sequential programs they are.  Each runs over
 a shared world in which everybody else may move between any two of its effects; `run` keeps
 every world passed through.  A command's contract is that the worlds it adds extend a run of
 the cutover, so every theorem about runs holds at each of its intermediate effects (and so
 wherever it may be killed), together with what its exit code promises.
 */
module CutoverCommands {
  import opened Common
  import opened SealStore
  import opened CutoverModel
  import opened CutoverInvariant
  import opened CutoverTheorems

  datatype SealCode =
    | SealEnvelope | SealOutputFailed | SealStateFailed | SealDaemonStopFailed | SealNonconverged
    | SealSourceRecoveryFailed | SealInterrupted | SealTerminal | SealNoActiveMount

  datatype ResumeCode =
    | ResumeEnvelope | ResumeNotFound | ResumeReadinessFailed | ResumeStateFailed | ResumeTerminal
    | ResumeHandbackRequired | ResumeOwnershipConflict | ResumeBurnFailed | ResumeNonconverged

  datatype HandbackCode =
    | HandbackEnvelope | HandbackOutputFailed | HandbackStateFailed | HandbackStopFailed | HandbackRecoveryFailed
    | HandbackNonconverged | HandbackResultUnknown | HandbackTerminal | HandbackNoActiveMount
    | HandbackNonconvergedBefore    // printed as HandbackNonconverged, from the durable record alone

  predicate Fallen(m: Mount, m': Mount) {
    m == m' || MountFalls(m, m')
  }

  /** Nobody else touches a running source command's record, copy, lease or position. */
  predicate SourceUndisturbed(w: World, w': World) {
    && w'.src == w.src.(mount := w'.src.mount, mail := w'.src.mail)
    && Fallen(w.src.mount, w'.src.mount)
    && w'.disclosed == w.disclosed
  }

  predicate HandbackUndisturbed(w: World, w': World) {
    && w'.dst == w.dst.(mount := w'.dst.mount, mail := w'.dst.mail)
    && (Fallen(w.dst.mount, w'.dst.mount) ||
        (w.dst.pc == HIdle && SafeToStart(w.dst.record)))
    && w'.handedBack == w.handedBack
  }

  ghost predicate OthersThanSourceStep(w: World, w': World) {
    HandbackStep(w, w') || ServerHandles(w, w') || EnvironmentStep(w, w') || w' == HandbackCrash(w)
  }

  ghost predicate OthersThanHandbackStep(w: World, w': World) {
    SourceStep(w, w') || ServerHandles(w, w') || EnvironmentStep(w, w') || w' == SourceCrash(w)
  }

  /** The two "undisturbed" contracts leave out nothing the others can do, */
  lemma OthersLeaveSourceAlone(w: World, w': World)
    requires OthersThanSourceStep(w, w')
    ensures SourceUndisturbed(w, w')
  {
    if HandbackStep(w, w') { HandbackStepScope(w, w'); }
  }

  lemma OthersLeaveHandbackAlone(w: World, w': World)
    requires OthersThanHandbackStep(w, w')
    ensures HandbackUndisturbed(w, w')
  {
    if SourceStep(w, w') { SourceStepScope(w, w'); }
  }

  lemma SourceUndisturbedTransitive(a: World, b: World, c: World)
    requires SourceUndisturbed(a, b) && SourceUndisturbed(b, c)
    ensures SourceUndisturbed(a, c)
  {
  }

  lemma HandbackUndisturbedTransitive(a: World, b: World, c: World)
    requires HandbackUndisturbed(a, b) && HandbackUndisturbed(b, c)
    ensures HandbackUndisturbed(a, c)
  {
  }

  /** in any number of steps. */
  lemma {:induction false} SourceUndisturbedChain(ws: seq<World>, i: nat)
    requires i < |ws| && forall k, l :: 0 <= k < l < |ws| && l == k + 1 ==> SourceUndisturbed(ws[k], ws[l])
    ensures SourceUndisturbed(ws[0], ws[i])
  {
    if 0 < i {
      SourceUndisturbedChain(ws, i - 1);
      SourceUndisturbedTransitive(ws[0], ws[i - 1], ws[i]);
    }
  }

  lemma {:induction false} HandbackUndisturbedChain(ws: seq<World>, i: nat)
    requires i < |ws| && forall k, l :: 0 <= k < l < |ws| && l == k + 1 ==> HandbackUndisturbed(ws[k], ws[l])
    ensures HandbackUndisturbed(ws[0], ws[i])
  {
    if 0 < i {
      HandbackUndisturbedChain(ws, i - 1);
      HandbackUndisturbedTransitive(ws[0], ws[i - 1], ws[i]);
    }
  }

  lemma OthersLeaveSourceAloneFor(ws: seq<World>, i: nat)
    requires i < |ws| && forall k, l :: 0 <= k < l < |ws| && l == k + 1 ==> OthersThanSourceStep(ws[k], ws[l])
    ensures SourceUndisturbed(ws[0], ws[i])
  {
    forall k, l | 0 <= k < l < |ws| && l == k + 1 ensures SourceUndisturbed(ws[k], ws[l]) {
      OthersLeaveSourceAlone(ws[k], ws[l]);
    }
    SourceUndisturbedChain(ws, i);
  }

  lemma OthersLeaveHandbackAloneFor(ws: seq<World>, i: nat)
    requires i < |ws| && forall k, l :: 0 <= k < l < |ws| && l == k + 1 ==> OthersThanHandbackStep(ws[k], ws[l])
    ensures HandbackUndisturbed(ws[0], ws[i])
  {
    forall k, l | 0 <= k < l < |ws| && l == k + 1 ensures HandbackUndisturbed(ws[k], ws[l]) {
      OthersLeaveHandbackAlone(ws[k], ws[l]);
    }
    HandbackUndisturbedChain(ws, i);
  }

  /** Everybody else's worlds, in which a source command is as it was in w. */
  ghost predicate SourceQuiet(w: World, run: seq<World>, from: nat) {
    forall k :: from <= k < |run| ==> SourceUndisturbed(w, run[k])
  }

  ghost predicate HandbackQuiet(w: World, run: seq<World>, from: nat) {
    forall k :: from <= k < |run| ==> HandbackUndisturbed(w, run[k])
  }

  // ----------------------------------------------------- what happened since a moment

  /** A seal command set out to stop the source. */
  ghost predicate TriedToStop(run: seq<World>, from: nat) {
    exists k :: from <= k < |run| && run[k].src.pc == Stopping
  }

  /** The restart routine was reached, and saw the source serve. */
  ghost predicate SourceAtRestart(run: seq<World>, from: nat) {
    exists k :: from <= k < |run| && SourceRestarts(run[k].src.pc)
  }

  ghost predicate SourceBack(run: seq<World>, from: nat) {
    exists k :: from <= k < |run| && SourceRestarts(run[k].src.pc) && run[k].src.mount == Serving
  }

  ghost predicate DestinationAtRestart(run: seq<World>, from: nat) {
    exists k :: from <= k < |run| && HandbackRestarts(run[k].dst.pc)
  }

  ghost predicate DestinationBack(run: seq<World>, from: nat) {
    exists k :: from <= k < |run| && HandbackRestarts(run[k].dst.pc) && run[k].dst.mount == Serving
  }

  /** The resume command was looking at this answer. */
  ghost predicate ReplySeen(run: seq<World>, from: nat, reply: Reply) {
    exists k :: from <= k < |run| && run[k].src.pc == AwaitResume && run[k].src.mail == Some(Answered(reply))
  }

  /** An answer that settles that somebody else has the workspace, or proves nothing of this seal. */
  predicate Conflicting(reply: Reply, sealId: nat) {
    || reply == Refused(ResumeConflict) || reply == Refused(Replayed)
    || (reply.Granted? && !(reply.proof.status == SourceResumedStatus && reply.proof.sealId == sealId && reply.proof.sourceResumed))
  }

  ghost predicate ConflictSeen(run: seq<World>, from: nat, sealId: nat) {
    exists reply :: Conflicting(reply, sealId) && ReplySeen(run, from, reply)
  }

  lemma ReplyStays(run: seq<World>, from: nat, later: seq<World>, from': nat, reply: Reply)
    requires run <= later && from' <= from
    ensures ReplySeen(run, from, reply) ==> ReplySeen(later, from', reply)
  {
    if k :| from <= k < |run| && run[k].src.pc == AwaitResume && run[k].src.mail == Some(Answered(reply)) {
      assert later[k] == run[k];
    }
  }

  lemma RepliesStay(run: seq<World>, from: nat, later: seq<World>, from': nat, sealId: nat)
    requires run <= later && from' <= from
    ensures ReplySeen(run, from, Refused(HandbackRequired)) ==> ReplySeen(later, from', Refused(HandbackRequired))
    ensures ConflictSeen(run, from, sealId) ==> ConflictSeen(later, from', sealId)
  {
    ReplyStays(run, from, later, from', Refused(HandbackRequired));
    if reply :| Conflicting(reply, sealId) && ReplySeen(run, from, reply) {
      ReplyStays(run, from, later, from', reply);
    }
  }

  /** What happened stays so as the run goes on. */
  lemma SourceEventsStay(run: seq<World>, from: nat, later: seq<World>, from': nat)
    requires run <= later && from' <= from
    ensures SourceBack(run, from) ==> SourceBack(later, from')
    ensures SourceAtRestart(run, from) ==> SourceAtRestart(later, from')
  {
    if k :| from <= k < |run| && SourceRestarts(run[k].src.pc) && run[k].src.mount == Serving {
      assert later[k] == run[k];
    }
    if k :| from <= k < |run| && SourceRestarts(run[k].src.pc) {
      assert later[k] == run[k];
    }
  }

  lemma DestinationEventsStay(run: seq<World>, from: nat, later: seq<World>, from': nat)
    requires run <= later && from' <= from
    ensures DestinationBack(run, from) ==> DestinationBack(later, from')
    ensures DestinationAtRestart(run, from) ==> DestinationAtRestart(later, from')
  {
    if k :| from <= k < |run| && HandbackRestarts(run[k].dst.pc) && run[k].dst.mount == Serving {
      assert later[k] == run[k];
    }
    if k :| from <= k < |run| && HandbackRestarts(run[k].dst.pc) {
      assert later[k] == run[k];
    }
  }

  /** What did not happen in either part did not happen in the whole. */
  lemma NoSourceEvents(run: seq<World>, from: nat, later: seq<World>)
    requires run <= later && from <= |run|
    ensures !TriedToStop(run, from) && !TriedToStop(later, |run|) ==> !TriedToStop(later, from)
    ensures !SourceAtRestart(run, from) && !SourceAtRestart(later, |run|) ==> !SourceAtRestart(later, from)
  {
    assert forall k :: 0 <= k < |run| ==> later[k] == run[k];
  }

  lemma NoDestinationEvents(run: seq<World>, from: nat, later: seq<World>)
    requires run <= later && from <= |run|
    ensures !DestinationAtRestart(run, from) && !DestinationAtRestart(later, |run|) ==> !DestinationAtRestart(later, from)
  {
    assert forall k :: 0 <= k < |run| ==> later[k] == run[k];
  }

  lemma SourceFacts(ws: seq<World>)
    requires Run(ws)
    ensures SourceInv(ws[|ws| - 1].src) && SourceLeaseInv(ws[|ws| - 1].src)
  {
    RunInv(ws, |ws| - 1);
  }

  /** What a run says about resuming: a disclosed source is down, or has a durable proof. */
  lemma ResumeFacts(ws: seq<World>)
    requires Run(ws)
    ensures var w := ws[|ws| - 1];
            && SourceLeaseInv(w.src) && (w.src.record.Some? ==> RecordOk(w.src.record.value))
            && (w.disclosed != {} ==> HasReceipt(w.src))
            && (HasReceipt(w.src) && !HasProof(w.src) ==> w.src.mount == Down)
            && (HasProof(w.src) ==> SourceResumedAt(w.server))
  {
    RunInv(ws, |ws| - 1);
  }

  lemma AnsweredFacts(ws: seq<World>)
    requires Run(ws) && ws[|ws| - 1].dst.pc.HReleaseFailed?
    ensures ws[|ws| - 1].dst.record.Some? && ws[|ws| - 1].dst.record.value.status == HandingBack
  {
    RunInv(ws, |ws| - 1);
  }

  lemma HandbackFacts(ws: seq<World>)
    requires Run(ws)
    ensures HandbackLocalInv(ws[|ws| - 1].dst) && HandbackLeaseInv(ws[|ws| - 1].dst)
  {
    RunInv(ws, |ws| - 1);
  }

  predicate SealedDurably(s: Source) {
    s.record.Some? && s.record.value.status == Sealed && s.record.value.receipt.Some?
  }

  /** A command that ended before any seal was durable recorded that, or could not. */
  predicate EndedUnsealed(s: Source, status: SourceStatus) {
    && s.record.Some? && s.record.value.receipt.None? && s.local.status == status
    && (s.record == Some(s.local) || s.record.value.status in {Preparing, Stopped, PresealFailed})
  }

  /** What each exit of checkpoint-seal promises about the worlds it added to a run. */
  ghost predicate SealOutcome(before: seq<World>, after: seq<World>, code: SealCode) {
    && before <= after && |before| > 0
    && var w := after[|after| - 1];
       && (code in {SealEnvelope, SealOutputFailed} ==> SealedDurably(w.src))
       && (code == SealEnvelope ==> Envelope(w.src.record.value.receipt.value) in w.disclosed)
       && (code != SealEnvelope ==> w.disclosed == before[|before| - 1].disclosed)
       && (code in {SealDaemonStopFailed, SealNonconverged, SealInterrupted} ==>
             SourceBack(after, |before|) && EndedUnsealed(w.src, PresealFailed))
       && (code == SealSourceRecoveryFailed ==> SourceAtRestart(after, |before|))
       && (code == SealStateFailed ==> SourceBack(after, |before|) || !TriedToStop(after, |before|))
       && (code in {SealTerminal, SealNoActiveMount} ==> !TriedToStop(after, |before|))
  }

  /** The same of resume-seal. */
  ghost predicate ResumeOutcome(before: seq<World>, after: seq<World>, code: ResumeCode) {
    && before <= after && |before| > 0
    && var w := after[|after| - 1];
       && w.disclosed == before[|before| - 1].disclosed
       && (code == ResumeEnvelope ==> SourceBack(after, |before|) && w.src.record.Some? && w.src.record.value.status == Ready)
       && (code == ResumeNonconverged ==> SourceBack(after, |before|))
       && (code == ResumeReadinessFailed ==> SourceAtRestart(after, |before|))
       && (Declined(code) ==> !SourceAtRestart(after, |before|) && DeclinedDurably(after, |before|, w.src, code))
  }

  /** What a refusal leaves: the receipt without a proof, ready to be resumed again unless the
      answer settled that it never can be. */
  ghost predicate DeclinedDurably(run: seq<World>, from: nat, s: Source, code: ResumeCode) {
    && s.record.Some? && s.record.value.receipt.Some? && s.record.value.proof.None?
    && (s.record == Some(s.local) || s.record.value.status == Resuming)
    && (code == ResumeHandbackRequired ==>
          s.local.status == Sealed && s.record.value.status in {Sealed, Resuming}
          && ReplySeen(run, from, Refused(HandbackRequired)))
    && (code == ResumeOwnershipConflict ==>
          s.local.status == OwnershipConflict && s.record.value.status in {OwnershipConflict, Resuming}
          && ConflictSeen(run, from, s.record.value.receipt.value.sealId))
    && (code == ResumeBurnFailed ==> s.record.value.status == Resuming)
  }

  predicate Declined(code: ResumeCode) {
    code in {ResumeHandbackRequired, ResumeOwnershipConflict, ResumeBurnFailed}
  }

  /** Once a receipt was disclosed, no later world of a run is at the restart routine without
      the durable proof. */
  lemma RestartsOnlyWithProof(run: seq<World>, from: nat)
    requires Run(run) && from < |run| && run[from].disclosed != {}
    ensures forall k :: from <= k < |run| && SourceRestarts(run[k].src.pc) ==>
              HasProof(run[k].src) && SourceResumedAt(run[k].server)
  {
    var e :| e in run[from].disclosed;
    forall k | from <= k < |run| && SourceRestarts(run[k].src.pc)
      ensures HasProof(run[k].src) && SourceResumedAt(run[k].server)
    {
      DisclosedStays(run, from, k, e);
      RestartNeedsProof(run, k, e);
    }
  }

  /** With the theorems about runs, that is everything resume-seal promises. */
  lemma ResumeConclusion(before: seq<World>, after: seq<World>, code: ResumeCode)
    requires Run(after) && before <= after && |before| > 0 && after[|after| - 1].src.pc == Idle
    requires Declined(code) ==>
               && HasReceipt(before[|before| - 1].src) && before[|before| - 1].src.record.value.status in {Sealed, Resuming}
               && DeclinedDurably(after, |before|, after[|after| - 1].src, code)
    ensures var b, w := before[|before| - 1], after[|after| - 1];
            && !w.src.lease
            && (Declined(code) ==>
                  w.src.mount == Down && b.src.record.Some? && w.src.record.value.receipt == b.src.record.value.receipt)
    ensures before[|before| - 1].disclosed != {} ==>
              forall k :: |before| <= k < |after| && SourceRestarts(after[k].src.pc) ==>
                HasProof(after[k].src) && SourceResumedAt(after[k].server)
  {
    var i, j := |before| - 1, |after| - 1;
    assert after[i] == before[i];
    ResumeFacts(after);
    if Declined(code) {
      ReceiptKept(after, i, j);
      TokenKept(after, i);
    }
    if before[i].disclosed != {} { RestartsOnlyWithProof(after, i); }
  }

  lemma TokenKept(run: seq<World>, i: nat)
    requires Run(run) && i < |run| && HasReceipt(run[i].src) && run[i].src.record.value.status in {Sealed, Resuming}
    ensures run[i].src.record.value.receipt.value.hasToken
  {
    RunInv(run, i);
  }

  /** A record that still carries its token carries the receipt it always had. */
  lemma ReceiptKept(run: seq<World>, i: nat, j: nat)
    requires Run(run) && i <= j < |run| && HasReceipt(run[i].src)
    ensures HasReceipt(run[j].src)
    ensures run[i].src.record.value.receipt.value.hasToken && run[j].src.record.value.receipt.value.hasToken ==>
              run[j].src.record.value.receipt == run[i].src.record.value.receipt
  {
    SealedOnce(run, i, j);
  }

  lemma DisclosedStays(run: seq<World>, i: nat, j: nat, e: Envelope)
    requires Run(run) && i <= j < |run| && e in run[i].disclosed
    ensures e in run[j].disclosed
  {
    RunPersists(run, i, j);
  }

  /** What each exit of handback-seal promises about the worlds it added to a run. */
  ghost predicate HandbackOutcome(before: seq<World>, after: seq<World>, code: HandbackCode) {
    && before <= after && |before| > 0
    && var w := after[|after| - 1];
       && (code == HandbackEnvelope ==>
             HandbackDone(w.dst) && w.dst.record.value.result.Some? && w.dst.record.value.result.value in w.handedBack)
       && (code == HandbackResultUnknown ==>
             w.dst.mount != Serving && w.dst.record == Some(HandbackRecord(HandbackUnknown, None)))
       && (code == HandbackNonconverged ==>
             && DestinationBack(after, |before|) && w.dst.local.status == FailedDestinationReady
             && w.dst.record.Some? && w.dst.record.value.status in {HandingBack, FailedDestinationReady})
       && (code == HandbackRecoveryFailed ==> DestinationAtRestart(after, |before|))
       && (code == HandbackStopFailed ==> DestinationBack(after, |before|) || !DestinationAtRestart(after, |before|))
       && (LeavesItDown(code) ==> !DestinationAtRestart(after, |before|))
  }

  /** The exits of a call that set to work. */
  predicate Attempted(code: HandbackCode) {
    code !in {HandbackNoActiveMount, HandbackTerminal, HandbackNonconvergedBefore}
  }

  /** The exits before which the destination is never restarted. */
  predicate LeavesItDown(code: HandbackCode) {
    code in {HandbackEnvelope, HandbackOutputFailed, HandbackResultUnknown, HandbackTerminal,
             HandbackNonconvergedBefore, HandbackNoActiveMount}
  }

  /** The outcome of a part is that of the whole if no restart came before. */
  lemma OutcomeOfRest(before: seq<World>, middle: seq<World>, after: seq<World>, code: HandbackCode)
    requires before <= middle && |before| > 0 && !DestinationAtRestart(middle, |before|)
    requires HandbackOutcome(middle, after, code)
    ensures HandbackOutcome(before, after, code)
  {
    DestinationEventsStay(after, |middle|, after, |before|);
    NoDestinationEvents(middle, |before|, after);
  }

  /** With the theorems about runs, that is everything the command promises. */
  lemma HandbackConclusion(before: seq<World>, after: seq<World>, code: HandbackCode)
    requires Run(after) && HandbackOutcome(before, after, code)
    ensures var w := after[|after| - 1];
            && (w.dst.pc == HIdle ==> !w.dst.lease)
            && (code == HandbackEnvelope ==>
                  HandbackDone(w.dst) && w.dst.record.value.result.Some? && HandbackReleasedAt(w.server)
                  && w.handedBack == {w.dst.record.value.result.value})
    ensures HandbackReleasedAt(before[|before| - 1].server) ==>
              && !DestinationAtRestart(after, |before|) && code !in {HandbackRecoveryFailed, HandbackNonconverged}
              && forall k :: |before| <= k < |after| ==> after[k].dst.mount != Serving
  {
    var last := |after| - 1;
    HandbackFacts(after);
    if code == HandbackEnvelope {
      ReportedReleaseHappened(after, last);
      ReplaysAreIdentical(after, last, last);
    }
    if HandbackReleasedAt(before[|before| - 1].server) {
      assert after[|before| - 1] == before[|before| - 1];
      forall k | |before| <= k < |after| ensures after[k].dst.mount != Serving && !HandbackRestarts(after[k].dst.pc) {
        ReleasedNeverRestarts(after, |before| - 1, k);
      }
    }
  }

  class Cluster {
    var world: World
    ghost var run: seq<World>
    ghost var starts: nat       // how often an effect of a command brought a mount up
    const savesWork: bool       // on this host no save of a record ever fails
    const outputWorks: bool     // nor any write of a result

    /** A command blames the disk or the output only where they can fail. */
    predicate SealHonest(code: SealCode) {
      (code == SealStateFailed ==> !savesWork) && (code == SealOutputFailed ==> !outputWorks)
    }

    predicate ResumeHonest(code: ResumeCode) {
      code == ResumeStateFailed ==> !savesWork
    }

    predicate HandbackHonest(code: HandbackCode) {
      (code == HandbackStateFailed ==> !savesWork) && (code == HandbackOutputFailed ==> !outputWorks)
    }

    ghost predicate Valid()
      reads this
    {
      Run(run) && run[|run| - 1] == world
    }

    constructor (w: World, savesWork: bool, outputWorks: bool)
      requires Init(w)
      ensures Valid() && world == w && run == [w] && starts == 0
      ensures this.savesWork == savesWork && this.outputWorks == outputWorks
    {
      this.savesWork, this.outputWorks := savesWork, outputWorks;
      world := w;
      run := [w];
      starts := 0;
    }

    /** The schedule between two effects of a source command: callers know only that the
        run goes on and that the command is undisturbed in every world added. */
    method OthersThanSource()
      requires Valid()
      modifies this
      ensures Valid() && old(run) <= run && SourceQuiet(old(world), run, |old(run)| - 1)
      ensures SourceUndisturbed(old(world), world) && starts == old(starts)
    {
    }

    method OthersThanHandback()
      requires Valid()
      modifies this
      ensures Valid() && old(run) <= run && HandbackQuiet(old(world), run, |old(run)| - 1)
      ensures HandbackUndisturbed(old(world), world) && starts == old(starts)
    {
    }

    /** One effect of a source command. */
    method Source(next: World)
      requires Valid() && SourceStep(world, next)
      modifies this
      ensures Valid() && old(run) < run && SourceUndisturbed(next, world)
      ensures !SourceRestarts(next.src.pc) ==> !SourceAtRestart(run, |old(run)|)
      ensures next.src.pc != Stopping ==> !TriedToStop(run, |old(run)|)
      ensures starts == old(starts) + (if old(world).src.mount != Serving && next.src.mount == Serving then 1 else 0)
    {
      starts := starts + (if world.src.mount != Serving && next.src.mount == Serving then 1 else 0);
      world := next;
      run := run + [next];
      OthersThanSource();
    }

    method SaveSource(then_: SourcePC, else_: SourcePC) returns (ok: bool)
      requires Valid()
      requires forall b :: SourceStep(world, SourceSave(world, b, then_, else_))
      modifies this
      ensures Valid() && old(run) < run && SourceUndisturbed(SourceSave(old(world), ok, then_, else_), world)
      ensures var pc := if ok then then_ else else_;
              && (!SourceRestarts(pc) ==> !SourceAtRestart(run, |old(run)|))
              && (pc != Stopping ==> !TriedToStop(run, |old(run)|))
      ensures savesWork ==> ok
    {
      ok := *;
      ok := ok || savesWork;
      Source(SourceSave(world, ok, then_, else_));
    }

    /** Signal the daemon, then poll until its lease is free and its process is gone. */
    method StopSource() returns (stopped: bool)
      requires Valid() && world.src.pc == Stopping && !world.src.lease
      modifies this
      ensures Valid() && old(run) <= run && world.src.record == old(world.src.record) && world.disclosed == old(world.disclosed)
      ensures stopped ==> world.src.pc == SaveStopped && world.src.lease && world.src.mount == Down
                          && world.src.local == old(world.src.local).(status := Stopped)
      ensures !stopped ==> world.src.pc == EnsurePreseal(PresealFailed) && !world.src.lease && world.src.local == old(world.src.local)
    {
      var polls: nat := *;
      while polls > 0
        invariant Valid() && old(run) <= run && world.src.pc == Stopping && !world.src.lease
        invariant world.src.record == old(world.src.record) && world.src.local == old(world.src.local)
        invariant world.disclosed == old(world.disclosed)
      {
        if world.src.mount != Serving {
          Source(SourceLease(world, true, Probed));
          if world.src.mount == Down {
            Source(SourceSet(world, world.src.local.(status := Stopped), SaveStopped));
            return true;
          }
          Source(SourceLease(world, false, Stopping));
        } else {
          OthersThanSource();
        }
        polls := polls - 1;
      }
      Source(SourceGoto(world, EnsurePreseal(PresealFailed)));
      stopped := false;
    }

    /** Poll for readiness, starting the mount at most once; a start that fails ends it. */
    method EnsureSource() returns (ready: bool)
      requires Valid() && SourceRestarts(world.src.pc) && !world.src.lease
      modifies this
      ensures Valid() && old(run) <= run && world.disclosed == old(world.disclosed)
      ensures world.src == old(world.src).(mount := world.src.mount, mail := world.src.mail)
      ensures ready ==> world.src.mount == Serving
      ensures starts <= old(starts) + 1
    {
      var polls: nat := *;
      var started := false;
      while polls > 0
        invariant Valid() && old(run) <= run && world.disclosed == old(world.disclosed)
        invariant world.src == old(world.src).(mount := world.src.mount, mail := world.src.mail)
        invariant starts <= old(starts) + (if started then 1 else 0)
      {
        var answers: bool := *;
        if world.src.mount == Serving && answers {
          return true;
        }
        if world.src.mount == Down && !started {
          var comesUp: bool := *;
          if !comesUp {
            return false;
          }
          Source(SourceRestart(world));
          started := true;
        } else {
          OthersThanSource();
        }
        polls := polls - 1;
      }
      ready := false;
    }

    /** Recover a source that was stopped, or may have been, before any seal was durable. */
    method RecoverPreseal() returns (ready: bool)
      requires Valid() && world.src.pc.EnsurePreseal? && !world.src.lease
      modifies this
      ensures Valid() && old(run) <= run && world.src.pc == Idle && world.disclosed == old(world.disclosed)
      ensures SourceAtRestart(run, |old(run)| - 1) && (ready ==> SourceBack(run, |old(run)| - 1))
      ensures EndedUnsealed(world.src, if ready then old(world.src.pc.onReady) else RecoveryFailed)
      ensures world.src.record == old(world.src.record) ||
              world.src.record == Some(old(world.src.local).(status := if ready then old(world.src.pc.onReady) else RecoveryFailed))
      ensures savesWork ==> world.src.record == Some(world.src.local)
    {
      ready := EnsureSource();
      ghost var seen := run;
      assert SourceAtRestart(seen, |old(run)| - 1) && (ready ==> SourceBack(seen, |old(run)| - 1)) by {
        assert seen[|seen| - 1] == world;
      }
      SettleUnsealed(ready);
      SourceEventsStay(seen, |old(run)| - 1, run, |old(run)| - 1);
    }

    /** Record how the recovery ended, if that can be saved. */
    method SettleUnsealed(ready: bool)
      requires Valid() && world.src.pc.EnsurePreseal? && !world.src.lease && (ready ==> world.src.mount == Serving)
      modifies this
      ensures Valid() && old(run) <= run && world.src.pc == Idle && world.disclosed == old(world.disclosed)
      ensures EndedUnsealed(world.src, if ready then old(world.src.pc.onReady) else RecoveryFailed)
      ensures world.src.record == old(world.src.record) ||
              world.src.record == Some(old(world.src.local).(status := if ready then old(world.src.pc.onReady) else RecoveryFailed))
      ensures savesWork ==> world.src.record == Some(world.src.local)
    {
      SourceFacts(run);
      if ready {
        Source(SourceSet(world, world.src.local.(status := world.src.pc.onReady), SaveLast));
      } else {
        Source(SourceSet(world, world.src.local.(status := RecoveryFailed), SaveLast));
      }
      var _ := SaveSource(Idle, Idle);
    }

    method WriteEnvelope() returns (code: SealCode)
      requires Valid() && world.src.pc == Emit && world.src.local.receipt.Some? && world.src.record == Some(world.src.local)
      modifies this
      ensures Valid() && old(run) <= run && world.src.pc == Idle && world.src.record == old(world.src.record)
      ensures code == SealEnvelope ==> Envelope(old(world.src.local.receipt.value)) in world.disclosed
      ensures code == SealEnvelope || (code == SealOutputFailed && world.disclosed == old(world.disclosed))
      ensures SealHonest(code)
    {
      var written: bool := *;
      written := written || outputWorks;
      if written {
        Source(SourceGoto(world, Idle).(disclosed := world.disclosed + {Envelope(world.src.local.receipt.value)}));
        code := SealEnvelope;
      } else {
        Source(SourceGoto(world, Idle));
        code := SealOutputFailed;
      }
    }

    /** mount checkpoint-seal.  A call in which the source was to be stopped ends with a
        durable sealed receipt, or after the restart routine saw the source serve again, or
        says that recovery failed. */
    method CheckpointSeal() returns (code: SealCode)
      requires Valid() && world.src.pc == Idle && !world.src.lease
      modifies this
      ensures Valid() && old(run) <= run && world.src.pc == Idle && !world.src.lease
      ensures SealOutcome(old(run), run, code)
      ensures code == SealNoActiveMount <==> old(world.src.record.None? && world.src.mount != Serving)
      ensures code == SealTerminal <==>
                old(world.src.record.Some? && world.src.record.value.status !in {Sealed, Preparing, Stopped})
      ensures old(world.src.record.Some? && world.src.record.value.status == Sealed) ==>
                code in {SealEnvelope, SealOutputFailed} && world.src.record == old(world.src.record)
      ensures old(world.src.record.Some? && world.src.record.value.status in {Preparing, Stopped}) ==>
                code in {SealInterrupted, SealSourceRecoveryFailed}
      ensures code == SealInterrupted ==>
                old(world.src.record.Some? && world.src.record.value.status in {Preparing, Stopped})
      ensures TriedToStop(run, |old(run)|) ==>
                || SealedDurably(world.src) || SourceBack(run, |old(run)|)
                || (code == SealSourceRecoveryFailed && SourceAtRestart(run, |old(run)|))
      ensures SealHonest(code)
      ensures code in {SealDaemonStopFailed, SealNonconverged, SealInterrupted} && savesWork ==> world.src.record == Some(world.src.local)
    {
      var loaded := world.src.record;
      if loaded.Some? {
        code := SealExisting();
      } else if world.src.mount != Serving {
        code := SealNoActiveMount;
      } else {
        code := SealActive();
      }
      assert !world.src.lease by { SourceFacts(run); }
    }

    /** checkpoint-seal under an id that already has a record. */
    method SealExisting() returns (code: SealCode)
      requires Valid() && world.src.pc == Idle && !world.src.lease && world.src.record.Some?
      modifies this
      ensures Valid() && old(run) <= run && world.src.pc == Idle
      ensures SealOutcome(old(run), run, code)
      ensures var status := old(world.src.record.value.status);
              && (status == Sealed ==> code in {SealEnvelope, SealOutputFailed} && world.src.record == old(world.src.record))
              && (status in {Preparing, Stopped} ==> code in {SealInterrupted, SealSourceRecoveryFailed})
              && (status !in {Sealed, Preparing, Stopped} ==> code == SealTerminal)
      ensures SealHonest(code)
      ensures code in {SealDaemonStopFailed, SealNonconverged, SealInterrupted} && savesWork ==> world.src.record == Some(world.src.local)
    {
      var status := world.src.record.value.status;
      assert status == Sealed ==> world.src.record.value.receipt.Some? by { SourceFacts(run); }
      Source(BeginSeal(world));
      if status == Sealed {
        code := WriteEnvelope();
      } else if status == Preparing || status == Stopped {
        ghost var begun := run;
        var ready := RecoverPreseal();
        SourceEventsStay(run, |begun| - 1, run, |old(run)|);
        code := if ready then SealInterrupted else SealSourceRecoveryFailed;
      } else {
        code := SealTerminal;
      }
    }

    /** checkpoint-seal of a running source under a fresh lifecycle id. */
    method SealActive() returns (code: SealCode)
      requires Valid() && world.src.pc == Idle && !world.src.lease && world.src.record == None && world.src.mount == Serving
      modifies this
      ensures Valid() && old(run) <= run && world.src.pc == Idle
      ensures SealOutcome(old(run), run, code) && code !in {SealNoActiveMount, SealTerminal, SealInterrupted}
      ensures SealHonest(code)
      ensures code in {SealDaemonStopFailed, SealNonconverged, SealInterrupted} && savesWork ==> world.src.record == Some(world.src.local)
    {
      var saved := PrepareSeal();
      if !saved {
        return SealStateFailed;
      }
      var stopped := StopSource();
      ghost var settled := run;
      if stopped {
        code := SealStopped();
        SourceEventsStay(run, |settled|, run, |old(run)|);
      } else {
        var ready := RecoverPreseal();
        SourceEventsStay(run, |settled| - 1, run, |old(run)|);
        code := if ready then SealDaemonStopFailed else SealSourceRecoveryFailed;
      }
    }

    /** The first save: without it nothing is stopped. */
    method PrepareSeal() returns (saved: bool)
      requires Valid() && world.src.pc == Idle && !world.src.lease && world.src.record == None && world.src.mount == Serving
      modifies this
      ensures Valid() && old(run) < run && world.disclosed == old(world.disclosed) && !world.src.lease
      ensures saved ==> world.src.pc == Stopping
      ensures !saved ==> world.src.pc == Idle && !TriedToStop(run, |old(run)|)
      ensures savesWork ==> saved
    {
      Source(BeginSeal(world));
      ghost var begun := run;
      saved := SaveSource(Stopping, Idle);
      NoSourceEvents(begun, |old(run)|, run);
    }

    /** The mount is stopped and its lease held: seal it, hand it out, or bring it back. */
    method SealStopped() returns (code: SealCode)
      requires Valid() && world.src.pc == SaveStopped && world.src.lease && world.src.mount == Down
      modifies this
      ensures Valid() && old(run) <= run && world.src.pc == Idle
      ensures SealOutcome(old(run), run, code) && (code == SealStateFailed ==> SourceBack(run, |old(run)|))
      ensures code in {SealEnvelope, SealOutputFailed, SealNonconverged, SealStateFailed, SealSourceRecoveryFailed}
      ensures SealHonest(code)
      ensures code in {SealDaemonStopFailed, SealNonconverged, SealInterrupted} && savesWork ==> world.src.record == Some(world.src.local)
    {
      var receipt := AskForSeal();
      ghost var asked := run;
      if receipt.None? {
        code := RecoverUnsealed();
      } else {
        code := DiscloseSealed(receipt.value);
      }
      SourceEventsStay(run, |asked|, run, |old(run)|);
    }

    /** Record that the mount is stopped, whether or not that succeeds, and ask for a seal. */
    method AskForSeal() returns (receipt: Option<Receipt>)
      requires Valid() && world.src.pc == SaveStopped
      modifies this
      ensures Valid() && old(run) <= run && world.src.pc == ReleaseLease(receipt) && world.disclosed == old(world.disclosed)
    {
      var _ := SaveSource(SendIssue, SendIssue);
      receipt := IssueForStopped();
    }

    /** No seal was issued: release the lease, then restart. */
    method RecoverUnsealed() returns (code: SealCode)
      requires Valid() && world.src.pc == ReleaseLease(None)
      modifies this
      ensures Valid() && old(run) <= run && world.src.pc == Idle
      ensures SealOutcome(old(run), run, code) && code in {SealNonconverged, SealSourceRecoveryFailed}
      ensures SealHonest(code)
      ensures code in {SealDaemonStopFailed, SealNonconverged, SealInterrupted} && savesWork ==> world.src.record == Some(world.src.local)
    {
      Source(SourceLease(world, false, EnsurePreseal(PresealFailed)));
      ghost var failing := run;
      var ready := RecoverPreseal();
      SourceEventsStay(run, |failing| - 1, run, |old(run)|);
      code := if ready then SealNonconverged else SealSourceRecoveryFailed;
    }

    /** A seal was issued: release the lease, and print the receipt only once it is durable. */
    method DiscloseSealed(receipt: Receipt) returns (code: SealCode)
      requires Valid() && world.src.pc == ReleaseLease(Some(receipt))
      modifies this
      ensures Valid() && old(run) <= run && world.src.pc == Idle
      ensures SealOutcome(old(run), run, code) && (code == SealStateFailed ==> SourceBack(run, |old(run)|))
      ensures code in {SealEnvelope, SealOutputFailed, SealStateFailed, SealSourceRecoveryFailed}
      ensures SealHonest(code)
    {
      Source(SourceSet(SourceLease(world, false, SaveSealed), world.src.local.(status := Sealed, receipt := Some(receipt)), SaveSealed));
      ghost var released := run;
      code := PersistSealed();
      SourceEventsStay(run, |released|, run, |old(run)|);
    }

    method PersistSealed() returns (code: SealCode)
      requires Valid() && world.src.pc == SaveSealed && !world.src.lease
      requires world.src.local.status == Sealed && world.src.local.receipt.Some?
      modifies this
      ensures Valid() && old(run) <= run && world.src.pc == Idle
      ensures SealOutcome(old(run), run, code) && (code == SealStateFailed ==> SourceBack(run, |old(run)|))
      ensures code in {SealEnvelope, SealOutputFailed, SealStateFailed, SealSourceRecoveryFailed}
      ensures SealHonest(code)
    {
      var saved := SaveSource(Emit, EnsureUnpersisted);
      if saved {
        code := WriteEnvelope();
      } else {
        ghost var unsaved := run;
        code := RecoverUnpersisted();
        SourceEventsStay(run, |unsaved| - 1, run, |old(run)|);
      }
    }

    /** The receipt could not be made durable and was shown to nobody: restart the source. */
    method RecoverUnpersisted() returns (code: SealCode)
      requires Valid() && world.src.pc == EnsureUnpersisted && !world.src.lease
      requires !savesWork
      modifies this
      ensures Valid() && old(run) <= run && world.src.pc == Idle && world.disclosed == old(world.disclosed)
      ensures code in {SealStateFailed, SealSourceRecoveryFailed}
      ensures SourceAtRestart(run, |old(run)| - 1) && (code == SealStateFailed ==> SourceBack(run, |old(run)| - 1))
      ensures SealHonest(code)
    {
      var ready := EnsureSource();
      ghost var seen := run;
      assert SourceAtRestart(seen, |old(run)| - 1) && (ready ==> SourceBack(seen, |old(run)| - 1)) by {
        assert seen[|seen| - 1] == world;
      }
      Source(SourceGoto(world, Idle));
      SourceEventsStay(seen, |old(run)| - 1, run, |old(run)| - 1);
      code := if ready then SealStateFailed else SealSourceRecoveryFailed;
    }

    /** Ask the server for a seal of the stopped mount. */
    method IssueForStopped() returns (receipt: Option<Receipt>)
      requires Valid() && world.src.pc == SendIssue
      modifies this
      ensures Valid() && old(run) <= run && world.src.pc == ReleaseLease(receipt) && world.disclosed == old(world.disclosed)
      ensures world.src.record == old(world.src.record) && world.src.local == old(world.src.local)
    {
      receipt := None;
      var converged: bool := *;
      var digest: nat := *;
      if !converged {
        Source(SourceGoto(world, ReleaseLease(None)));
        return;
      }
      Source(SourceSend(world, IssueReq(digest), AwaitIssue));
      if world.src.mail.Some? && world.src.mail.value.Issued? {
        receipt := Some(world.src.mail.value.receipt);
      }
      Source(SourceGoto(world, ReleaseLease(receipt)));
    }

    /** mount resume-seal.  It reports ready only with the ready record durable and after it
        saw the source serve, reaches the restart routine of a disclosed source only with a
        durable proof, and after a refusal has not reached it and leaves the source down. */
    method ResumeSeal() returns (code: ResumeCode)
      requires Valid() && world.src.pc == Idle && !world.src.lease
      modifies this
      ensures Valid() && old(run) <= run && world.src.pc == Idle && !world.src.lease && world.disclosed == old(world.disclosed)
      ensures code == ResumeEnvelope ==>
                && world.src.record.Some? && world.src.record.value.status == Ready
                && (world.src.mount == Serving || SourceBack(run, |old(run)|))
      ensures old(world.disclosed) != {} ==>
                forall k :: |old(run)| <= k < |run| && SourceRestarts(run[k].src.pc) ==>
                  HasProof(run[k].src) && SourceResumedAt(run[k].server)
      ensures Declined(code) ==>
                && !SourceAtRestart(run, |old(run)|) && world.src.mount == Down
                && DeclinedDurably(run, |old(run)|, world.src, code)
                && old(world.src.record.Some?) && world.src.record.value.receipt == old(world.src.record).value.receipt
      ensures code == ResumeNotFound <==> old(world.src.record.None?)
      ensures code == ResumeTerminal <==>
                old(world.src.record.Some? && world.src.record.value.status in {RecoveryFailed, OwnershipConflict})
      ensures old(world.src.record.Some? && world.src.record.value.status == Ready) ==>
                code in {ResumeEnvelope, ResumeReadinessFailed} && world.src.record == old(world.src.record)
      ensures old(world.src.record.Some? && world.src.record.value.status in {Preparing, Stopped, PresealFailed}) ==>
                code in {ResumeEnvelope, ResumeReadinessFailed, ResumeStateFailed}
      ensures ResumeHonest(code)
      ensures Declined(code) && savesWork ==> world.src.record == Some(world.src.local)
    {
      var loaded := world.src.record;
      if loaded.None? {
        code := ResumeNotFound;
        return;
      }
      var status := loaded.value.status;
      if status == Ready {
        var answers: bool := *;
        code := if world.src.mount == Serving && answers then ResumeEnvelope else ResumeReadinessFailed;
        return;
      }
      if status == Preparing || status == Stopped || status == PresealFailed {
        code := ResumePreseal();
      } else if status == Sealed || status == Resuming {
        code := ResumeSealed();
      } else {
        code := ResumeTerminal;
      }
      ResumeConclusion(old(run), run, code);
    }

    method ResumePreseal() returns (code: ResumeCode)
      requires Valid() && world.src.pc == Idle && !world.src.lease
      requires world.src.record.Some? && world.src.record.value.status in {Preparing, Stopped, PresealFailed}
      modifies this
      ensures Valid() && old(run) <= run && world.src.pc == Idle
      ensures ResumeOutcome(old(run), run, code) && code in {ResumeEnvelope, ResumeReadinessFailed, ResumeStateFailed}
      ensures ResumeHonest(code)
    {
      Source(BeginResume(world));
      ghost var begun := run;
      code := RestartPreseal();
      SourceEventsStay(run, |begun| - 1, run, |old(run)|);
    }

    method RestartPreseal() returns (code: ResumeCode)
      requires Valid() && world.src.pc == EnsurePreseal(Ready) && !world.src.lease
      modifies this
      ensures Valid() && old(run) <= run && world.src.pc == Idle && world.disclosed == old(world.disclosed)
      ensures code in {ResumeEnvelope, ResumeReadinessFailed, ResumeStateFailed}
      ensures SourceAtRestart(run, |old(run)| - 1) && (code == ResumeEnvelope ==> SourceBack(run, |old(run)| - 1))
      ensures code == ResumeEnvelope ==> world.src.record.Some? && world.src.record.value.status == Ready
      ensures ResumeHonest(code)
    {
      var ready := EnsureSource();
      ghost var seen := run;
      assert SourceAtRestart(seen, |old(run)| - 1) && (ready ==> SourceBack(seen, |old(run)| - 1)) by {
        assert seen[|seen| - 1] == world;
      }
      Source(SourceSet(world, world.src.local.(status := if ready then Ready else RecoveryFailed), SaveLast));
      var saved := SaveSource(Idle, Idle);
      SourceEventsStay(seen, |old(run)| - 1, run, |old(run)| - 1);
      code := if !ready then ResumeReadinessFailed else if saved then ResumeEnvelope else ResumeStateFailed;
    }

    method ResumeSealed() returns (code: ResumeCode)
      requires Valid() && world.src.pc == Idle && !world.src.lease
      requires world.src.record.Some? && world.src.record.value.status in {Sealed, Resuming}
      modifies this
      ensures Valid() && old(run) <= run && world.src.pc == Idle
      ensures ResumeOutcome(old(run), run, code) && HasReceipt(world.src)
      ensures Declined(code) ==> !HasProof(world.src)
      ensures code !in {ResumeNotFound, ResumeTerminal} && HasReceipt(old(world.src))
      ensures ResumeHonest(code)
      ensures Declined(code) && savesWork ==> world.src.record == Some(world.src.local)
    {
      SourceFacts(run);
      var saved := MarkResuming();
      if !saved {
        return ResumeStateFailed;
      }
      ghost var resuming := run;
      if world.src.pc == EnsureResumed {
        code := FinishResume();
        SourceEventsStay(run, |resuming| - 1, run, |old(run)|);
      } else {
        code := ClaimAndFinish();
        SourceEventsStay(run, |resuming|, run, |old(run)|);
        RepliesStay(run, |resuming|, run, |old(run)|, world.src.record.value.receipt.value.sealId);
        NoSourceEvents(resuming, |old(run)|, run);
      }
    }

    method ClaimAndFinish() returns (code: ResumeCode)
      requires Valid() && world.src.pc == SendResume && !world.src.lease
      modifies this
      ensures Valid() && old(run) <= run && world.src.pc == Idle
      ensures ResumeOutcome(old(run), run, code) && HasReceipt(world.src)
      ensures Declined(code) ==> !HasProof(world.src)
      ensures code !in {ResumeNotFound, ResumeTerminal}
      ensures ResumeHonest(code)
      ensures Declined(code) && savesWork ==> world.src.record == Some(world.src.local)
    {
      var failed := BurnReceipt();
      if failed.Some? {
        return failed.value;
      }
      ghost var proved := run;
      code := FinishResume();
      SourceEventsStay(run, |proved| - 1, run, |old(run)|);
    }

    /** The save that records the attempt; a proof that is durable is not asked for again. */
    method MarkResuming() returns (saved: bool)
      requires Valid() && world.src.pc == Idle && !world.src.lease
      requires world.src.record.Some? && world.src.record.value.status in {Sealed, Resuming}
      modifies this
      ensures Valid() && old(run) < run && world.disclosed == old(world.disclosed) && HasReceipt(world.src) && !world.src.lease
      ensures !saved ==> world.src.pc == Idle
      ensures saved ==> world.src.pc == EnsureResumed || (world.src.pc == SendResume && !SourceAtRestart(run, |old(run)|))
      ensures savesWork ==> saved
    {
      SourceFacts(run);
      Source(BeginResume(world));
      ghost var begun := run;
      saved := SaveSource(AfterResuming(world.src.local), Idle);
      NoSourceEvents(begun, |old(run)|, run);
    }

    /** Claim ownership back; only a validated, durable proof lets the restart begin. */
    method BurnReceipt() returns (failed: Option<ResumeCode>)
      requires Valid() && world.src.pc == SendResume && !world.src.lease
      modifies this
      ensures Valid() && old(run) <= run && world.disclosed == old(world.disclosed) && HasReceipt(world.src)
      ensures failed.None? ==> old(run) < run && world.src.pc == EnsureResumed && HasProof(world.src) && !world.src.lease
      ensures failed.Some? ==> world.src.pc == Idle && !HasProof(world.src) && !SourceAtRestart(run, |old(run)|)
      ensures failed.Some? ==> Declined(failed.value) || failed.value == ResumeStateFailed
      ensures failed.Some? && Declined(failed.value) ==> DeclinedDurably(run, |old(run)|, world.src, failed.value)
      ensures failed == Some(ResumeStateFailed) ==> !savesWork
      ensures failed.Some? && savesWork ==> world.src.record == Some(world.src.local)
    {
      SourceFacts(run);
      var code := ClaimOwnership();
      ghost var claimed := run;
      if code == ResumeEnvelope {
        var saved := SaveSource(EnsureResumed, Idle);
        NoSourceEvents(claimed, |old(run)|, run);
        return if saved then None else Some(ResumeStateFailed);
      }
      var _ := SaveSource(Idle, Idle);
      NoSourceEvents(claimed, |old(run)|, run);
      RepliesStay(claimed, |old(run)|, run, |old(run)|, world.src.record.value.receipt.value.sealId);
      failed := Some(code);
    }

    /** The resume request and the reading of its answer. */
    method ClaimOwnership() returns (code: ResumeCode)
      requires Valid() && world.src.pc == SendResume && !world.src.lease && SourceInv(world.src)
      modifies this
      ensures Valid() && old(run) <= run && world.disclosed == old(world.disclosed) && !SourceAtRestart(run, |old(run)|)
      ensures world.src.record == old(world.src.record) && !world.src.lease && HasReceipt(world.src) && !HasProof(world.src)
      ensures code == ResumeEnvelope ==>
                world.src.pc == SaveProof && world.src.local.proof.Some? && world.src.local.receipt.Some?
      ensures code != ResumeEnvelope ==>
                world.src.pc == SaveLast && world.src.local.proof.None? && world.src.local.receipt.Some?
      ensures code == ResumeEnvelope || Declined(code)
      ensures world.src.record.value.status == Resuming && world.src.record.value.receipt == world.src.local.receipt
      ensures code == ResumeHandbackRequired ==>
                world.src.local.status == Sealed && ReplySeen(run, |old(run)|, Refused(HandbackRequired))
      ensures code == ResumeOwnershipConflict ==>
                && world.src.local.status == OwnershipConflict
                && ConflictSeen(run, |old(run)|, world.src.local.receipt.value.sealId)
      ensures code == ResumeBurnFailed ==> world.src.local.status == Resuming
    {
      var reachable: bool := *;
      code := ResumeBurnFailed;
      if !reachable {
        Source(SourceGoto(world, SaveLast));
        return;
      }
      Source(SourceSend(world, ResumeReq, AwaitResume));
      ghost var sent := run;
      ghost var mail := world.src.mail;
      assert mail.Some? && mail.value.Answered? ==> ReplySeen(sent, |old(run)|, mail.value.reply) by {
        assert sent[|sent| - 1] == world;
      }
      code := ReadClaim();
      NoSourceEvents(sent, |old(run)|, run);
      if mail.Some? && mail.value.Answered? { ReplyStays(sent, |old(run)|, run, |old(run)|, mail.value.reply); }
    }

    method ReadClaim() returns (code: ResumeCode)
      requires Valid() && world.src.pc == AwaitResume && !world.src.lease
      requires world.src.local.receipt.Some? && world.src.local.proof.None? && world.src.local.status == Resuming
      modifies this
      ensures Valid() && old(run) <= run && world.disclosed == old(world.disclosed) && !SourceAtRestart(run, |old(run)|)
      ensures world.src.record == old(world.src.record) && !world.src.lease && world.src.local.receipt.Some?
      ensures code == ResumeEnvelope ==> world.src.pc == SaveProof && world.src.local.proof.Some?
      ensures code != ResumeEnvelope ==> world.src.pc == SaveLast && world.src.local.proof.None?
      ensures code == ResumeEnvelope || Declined(code)
      ensures world.src.local.receipt == old(world.src.local.receipt)
      ensures code == ResumeHandbackRequired ==>
                old(world.src.mail) == Some(Answered(Refused(HandbackRequired))) && world.src.local.status == Sealed
      ensures code == ResumeOwnershipConflict ==>
                && old(world.src.mail.Some? && world.src.mail.value.Answered?
                       && Conflicting(world.src.mail.value.reply, world.src.local.receipt.value.sealId))
                && world.src.local.status == OwnershipConflict
      ensures code == ResumeBurnFailed ==> world.src.local.status == old(world.src.local.status)
    {
      if world.src.mail.None? || !world.src.mail.value.Answered? {
        Source(SourceGoto(world, SaveLast));
        return ResumeBurnFailed;
      }
      var reply := world.src.mail.value.reply;
      var (r, pc) := OnResumeReply(world.src.local, reply);
      Source(SourceSet(world, r, pc));
      code := if pc == SaveProof then ResumeEnvelope
              else if reply == Refused(HandbackRequired) then ResumeHandbackRequired
              else if r.status == OwnershipConflict then ResumeOwnershipConflict else ResumeBurnFailed;
    }

    /** With the proof durable: restart, wait until converged, record. */
    method FinishResume() returns (code: ResumeCode)
      requires Valid() && world.src.pc == EnsureResumed && !world.src.lease
      modifies this
      ensures Valid() && old(run) <= run && world.src.pc == Idle && world.disclosed == old(world.disclosed)
      ensures HasProof(world.src) && HasReceipt(world.src)
      ensures SourceAtRestart(run, |old(run)| - 1)
      ensures code in {ResumeEnvelope, ResumeNonconverged} ==> SourceBack(run, |old(run)| - 1)
      ensures code == ResumeEnvelope ==> world.src.record.Some? && world.src.record.value.status == Ready
      ensures code in {ResumeEnvelope, ResumeReadinessFailed, ResumeNonconverged, ResumeStateFailed}
      ensures ResumeHonest(code)
    {
      SourceFacts(run);
      var ready := EnsureSource();
      ghost var seen := run;
      assert SourceAtRestart(seen, |old(run)| - 1) && (ready ==> SourceBack(seen, |old(run)| - 1)) by {
        assert seen[|seen| - 1] == world;
      }
      if !ready {
        Source(SourceGoto(world, SaveLast));
        var _ := SaveSource(Idle, Idle);
        SourceEventsStay(seen, |old(run)| - 1, run, |old(run)| - 1);
        return ResumeReadinessFailed;
      }
      Source(SourceGoto(world, AwaitConverged));
      code := AwaitConvergence();
      SourceEventsStay(seen, |old(run)| - 1, run, |old(run)| - 1);
    }

    method AwaitConvergence() returns (code: ResumeCode)
      requires Valid() && world.src.pc == AwaitConverged
      requires HasProof(world.src) && HasReceipt(world.src) && world.src.record == Some(world.src.local)
      modifies this
      ensures Valid() && old(run) <= run && world.src.pc == Idle && world.disclosed == old(world.disclosed)
      ensures HasProof(world.src) && HasReceipt(world.src)
      ensures code == ResumeEnvelope ==> world.src.record.Some? && world.src.record.value.status == Ready
      ensures code in {ResumeEnvelope, ResumeNonconverged, ResumeStateFailed}
      ensures ResumeHonest(code)
    {
      var converged: bool := *;
      if !converged {
        Source(SourceGoto(world, SaveLast));
        var _ := SaveSource(Idle, Idle);
        return ResumeNonconverged;
      }
      Source(SourceSet(world, Resumed(world.src.local), SaveLast));
      var saved := SaveSource(Idle, Idle);
      code := if saved then ResumeEnvelope else ResumeStateFailed;
    }

    // ---------------------------------------------------------------------- the handback

    /** One effect of a handback command. */
    method Destination(next: World)
      requires Valid() && HandbackStep(world, next)
      modifies this
      ensures Valid() && old(run) < run && HandbackUndisturbed(next, world)
      ensures !HandbackRestarts(next.dst.pc) ==> !DestinationAtRestart(run, |old(run)|)
      ensures starts == old(starts) + (if old(world).dst.mount != Serving && next.dst.mount == Serving then 1 else 0)
    {
      starts := starts + (if world.dst.mount != Serving && next.dst.mount == Serving then 1 else 0);
      world := next;
      run := run + [next];
      OthersThanHandback();
    }

    method SaveHandback(then_: HandbackPC, else_: HandbackPC) returns (ok: bool)
      requires Valid()
      requires forall b :: HandbackStep(world, HandbackSave(world, b, then_, else_))
      modifies this
      ensures Valid() && old(run) < run && HandbackUndisturbed(HandbackSave(old(world), ok, then_, else_), world)
      ensures !HandbackRestarts(if ok then then_ else else_) ==> !DestinationAtRestart(run, |old(run)|)
      ensures savesWork ==> ok
    {
      ok := *;
      ok := ok || savesWork;
      Destination(HandbackSave(world, ok, then_, else_));
    }

    method StopDestination(first: bool) returns (stopped: bool)
      requires Valid() && world.dst.pc == HStopping(first) && !world.dst.lease
      modifies this
      ensures Valid() && old(run) <= run && world.dst.record == old(world.dst.record) && world.handedBack == old(world.handedBack)
      ensures stopped ==> world.dst.pc == HSaveStopped(first) && world.dst.lease && world.dst.mount == Down
      ensures !stopped ==> world.dst.pc == (if first then HEnsureStopFailed else HIdle) && !world.dst.lease
      ensures stopped || !first ==> !DestinationAtRestart(run, |old(run)|)
    {
      var polls: nat := *;
      while polls > 0
        invariant Valid() && old(run) <= run && world.dst.pc == HStopping(first) && !world.dst.lease
        invariant world.dst.record == old(world.dst.record) && world.handedBack == old(world.handedBack)
        invariant !DestinationAtRestart(run, |old(run)|)
      {
        ghost var before := run;
        stopped := PollStopped(first);
        NoDestinationEvents(before, |old(run)|, run);
        if stopped {
          return;
        }
        polls := polls - 1;
      }
      ghost var before := run;
      Destination(HandbackGoto(world, if first then HEnsureStopFailed else HIdle));
      NoDestinationEvents(before, |old(run)|, run);
      stopped := false;
    }

    /** One poll: take the lease if it is free, keep it if the daemon is gone. */
    method PollStopped(first: bool) returns (stopped: bool)
      requires Valid() && world.dst.pc == HStopping(first) && !world.dst.lease
      modifies this
      ensures Valid() && old(run) <= run && world.dst.record == old(world.dst.record) && world.handedBack == old(world.handedBack)
      ensures stopped ==> world.dst.pc == HSaveStopped(first) && world.dst.lease && world.dst.mount == Down
      ensures !stopped ==> world.dst.pc == HStopping(first) && !world.dst.lease
      ensures !DestinationAtRestart(run, |old(run)|)
    {
      stopped := false;
      if world.dst.mount == Serving {
        OthersThanHandback();
        return;
      }
      Destination(HandbackLease(world, true, HProbed(first)));
      ghost var probed := run;
      if world.dst.mount == Down {
        Destination(HandbackSet(world, world.dst.local.(status := HStopped), HSaveStopped(first)));
        stopped := true;
      } else {
        Destination(HandbackLease(world, false, HStopping(first)));
      }
      NoDestinationEvents(probed, |old(run)|, run);
    }

    method EnsureDestination() returns (ready: bool)
      requires Valid() && HandbackRestarts(world.dst.pc) && !world.dst.lease
      modifies this
      ensures Valid() && old(run) <= run && world.handedBack == old(world.handedBack)
      ensures world.dst == old(world.dst).(mount := world.dst.mount, mail := world.dst.mail)
      ensures ready ==> world.dst.mount == Serving
      ensures starts <= old(starts) + 1
    {
      var polls: nat := *;
      var started := false;
      while polls > 0
        invariant Valid() && old(run) <= run && world.handedBack == old(world.handedBack)
        invariant world.dst == old(world.dst).(mount := world.dst.mount, mail := world.dst.mail)
        invariant starts <= old(starts) + (if started then 1 else 0)
      {
        var answers: bool := *;
        if world.dst.mount == Serving && answers {
          return true;
        }
        if world.dst.mount == Down && !started {
          var comesUp: bool := *;
          if !comesUp {
            return false;
          }
          Destination(HandbackRestart(world));
          started := true;
        } else {
          OthersThanHandback();
        }
        polls := polls - 1;
      }
      ready := false;
    }

    /** Bring the destination back after a failure that cannot have released ownership. */
    method RecoverDestination(failure: HandbackCode) returns (code: HandbackCode)
      requires Valid() && (world.dst.pc == HEnsureStopFailed || world.dst.pc == HEnsureDiverged) && !world.dst.lease
      requires failure in {HandbackStopFailed, HandbackNonconverged}
      modifies this
      ensures Valid() && old(run) <= run && world.dst.pc == HIdle && world.handedBack == old(world.handedBack)
      ensures code == failure || code == HandbackRecoveryFailed
      ensures DestinationAtRestart(run, |old(run)| - 1) && (code == failure ==> DestinationBack(run, |old(run)| - 1))
      ensures world.dst.local.status == if code == failure then FailedDestinationReady else HRecoveryFailed
      ensures world.dst.record == old(world.dst.record) || world.dst.record == Some(world.dst.local)
      ensures savesWork ==> world.dst.record == Some(world.dst.local)
    {
      var ready := EnsureDestination();
      ghost var seen := run;
      assert DestinationAtRestart(seen, |old(run)| - 1) && (ready ==> DestinationBack(seen, |old(run)| - 1)) by {
        assert seen[|seen| - 1] == world;
      }
      Destination(HandbackSet(world, world.dst.local.(status := if ready then FailedDestinationReady else HRecoveryFailed), HSaveLast));
      var _ := SaveHandback(HIdle, HIdle);
      DestinationEventsStay(seen, |old(run)| - 1, run, |old(run)| - 1);
      code := if ready then failure else HandbackRecoveryFailed;
    }

    /** mount handback-seal.  A printed result is a release that happened; an unknown result
        leaves the destination stopped under a retryable record; and in a call made once the
        server has released ownership the destination never serves and no restart begins. */
    method HandbackSeal() returns (code: HandbackCode)
      requires Valid() && world.dst.pc == HIdle && !world.dst.lease
      modifies this
      ensures Valid() && old(run) <= run && world.dst.pc == HIdle && !world.dst.lease
      ensures HandbackOutcome(old(run), run, code)
      ensures code == HandbackNoActiveMount <==> old(world.dst.record.None? && world.dst.mount != Serving)
      ensures code == HandbackTerminal <==> old(world.dst.record.Some? && world.dst.record.value.status == HRecoveryFailed)
      ensures code == HandbackNonconvergedBefore <==>
                old(world.dst.record.Some? && world.dst.record.value.status == FailedDestinationReady)
      ensures old(world.dst.record.Some? && world.dst.record.value.status == HandbackReleased) ==>
                && code in {HandbackEnvelope, HandbackOutputFailed}
                && world.dst.record == old(world.dst.record) && world.dst.record.value.result.Some?
                && (code == HandbackEnvelope ==> world.dst.record.value.result.value in world.handedBack)
      ensures code == HandbackEnvelope ==>
                && HandbackDone(world.dst) && HandbackReleasedAt(world.server)
                && world.dst.record.value.result.Some? && world.handedBack == {world.dst.record.value.result.value}
      ensures HandbackReleasedAt(old(world.server)) ==>
                && !DestinationAtRestart(run, |old(run)|) && code !in {HandbackRecoveryFailed, HandbackNonconverged}
                && forall k :: |old(run)| <= k < |run| ==> run[k].dst.mount != Serving
      ensures HandbackHonest(code)
      ensures code == HandbackNonconverged && savesWork ==> world.dst.record == Some(world.dst.local)
    {
      HandbackFacts(run);
      var loaded := world.dst.record;
      if loaded.None? && world.dst.mount != Serving {
        code := HandbackNoActiveMount;
      } else if loaded.None? {
        code := HandbackActive();
      } else if Retryable(loaded.value.status) {
        code := RetryHandback();
      } else if loaded.value.status == HandbackReleased {
        code := ReplayHandback();
      } else {
        code := if loaded.value.status == FailedDestinationReady then HandbackNonconvergedBefore else HandbackTerminal;
      }
      HandbackConclusion(old(run), run, code);
    }

    /** A released handback prints its durable result again. */
    method ReplayHandback() returns (code: HandbackCode)
      requires Valid() && world.dst.pc == HIdle && !world.dst.lease
      requires world.dst.record.Some? && world.dst.record.value.status == HandbackReleased && world.dst.record.value.result.Some?
      modifies this
      ensures Valid() && old(run) <= run && world.dst.pc == HIdle
      ensures HandbackOutcome(old(run), run, code) && code in {HandbackEnvelope, HandbackOutputFailed}
      ensures world.dst.record == old(world.dst.record)
      ensures code == HandbackEnvelope ==> world.handedBack == old(world.handedBack) + {world.dst.record.value.result.value}
      ensures HandbackHonest(code)
    {
      var written: bool := *;
      written := written || outputWorks;
      if !written {
        return HandbackOutputFailed;
      }
      Destination(BeginHandback(world));
      code := HandbackEnvelope;
    }

    /** A first attempt under a fresh handback id. */
    method HandbackActive() returns (code: HandbackCode)
      requires Valid() && world.dst.pc == HIdle && !world.dst.lease && world.dst.record == None && world.dst.mount == Serving
      modifies this
      ensures Valid() && old(run) <= run && world.dst.pc == HIdle
      ensures HandbackOutcome(old(run), run, code) && Attempted(code)
      ensures HandbackHonest(code)
      ensures code == HandbackNonconverged && savesWork ==> world.dst.record == Some(world.dst.local)
    {
      var saved := PrepareHandback();
      if !saved {
        return HandbackStateFailed;
      }
      ghost var preparing := run;
      var stopped := StopDestination(true);
      if stopped {
        NoDestinationEvents(preparing, |old(run)|, run);
        ghost var held := run;
        code := HandbackStopped();
        OutcomeOfRest(old(run), held, run, code);
      } else {
        ghost var failing := run;
        code := RecoverDestination(HandbackStopFailed);
        DestinationEventsStay(run, |failing| - 1, run, |old(run)|);
      }
    }

    method PrepareHandback() returns (saved: bool)
      requires Valid() && world.dst.pc == HIdle && !world.dst.lease && world.dst.record == None && world.dst.mount == Serving
      modifies this
      ensures Valid() && old(run) < run && !world.dst.lease && !DestinationAtRestart(run, |old(run)|)
      ensures world.dst.pc == (if saved then HStopping(true) else HIdle)
      ensures savesWork ==> saved
    {
      Destination(BeginHandback(world));
      ghost var begun := run;
      saved := SaveHandback(HStopping(true), HIdle);
      NoDestinationEvents(begun, |old(run)|, run);
    }

    /** The mount is stopped for a first attempt: record that, or bring it back. */
    method HandbackStopped() returns (code: HandbackCode)
      requires Valid() && world.dst.pc == HSaveStopped(true) && world.dst.lease
      modifies this
      ensures Valid() && old(run) <= run && world.dst.pc == HIdle
      ensures HandbackOutcome(old(run), run, code) && Attempted(code)
      ensures HandbackHonest(code)
      ensures code == HandbackNonconverged && savesWork ==> world.dst.record == Some(world.dst.local)
    {
      var saved: bool := *;
      saved := saved || savesWork;
      Destination(HandbackSaveStopped(world, saved, true));
      if !saved {
        ReleaseUnsaved();
        return HandbackStateFailed;
      }
      ghost var stopped := run;
      code := FinishHandback();
      OutcomeOfRest(old(run), stopped, run, code);
    }

    /** The stop could not be recorded: give the lease up, then restart. */
    method ReleaseUnsaved()
      requires Valid() && world.dst.pc == HReleaseUnsaved
      modifies this
      ensures Valid() && old(run) <= run && world.dst.pc == HIdle && DestinationAtRestart(run, |old(run)|)
    {
      Destination(HandbackLease(world, false, HEnsureUnsaved));
      ghost var free := run;
      assert DestinationAtRestart(free, |old(run)|) by { assert free[|free| - 1] == world; }
      var _ := EnsureDestination();
      Destination(HandbackGoto(world, HIdle));
      DestinationEventsStay(free, |old(run)|, run, |old(run)|);
    }

    /** A retry: take the stopped destination's lease, or stop a destination that a first
        attempt left running; never restart on failure. */
    method RetryHandback() returns (code: HandbackCode)
      requires Valid() && world.dst.pc == HIdle && !world.dst.lease
      requires world.dst.record.Some? && Retryable(world.dst.record.value.status)
      modifies this
      ensures Valid() && old(run) <= run && world.dst.pc == HIdle
      ensures HandbackOutcome(old(run), run, code) && Attempted(code)
      ensures HandbackHonest(code)
      ensures code == HandbackNonconverged && savesWork ==> world.dst.record == Some(world.dst.local)
    {
      Destination(BeginHandback(world));
      ghost var begun := run;
      var held := AcquireStopped();
      NoDestinationEvents(begun, |old(run)|, run);
      if !held {
        return HandbackStopFailed;
      }
      ghost var holding := run;
      code := RetryStopped();
      OutcomeOfRest(old(run), holding, run, code);
    }

    /** acquireStoppedHandbackLease */
    method AcquireStopped() returns (held: bool)
      requires Valid() && world.dst.pc == HAcquire && !world.dst.lease
      modifies this
      ensures Valid() && old(run) <= run && !DestinationAtRestart(run, |old(run)|)
      ensures held ==> world.dst.pc == HSaveStopped(false) && world.dst.lease
      ensures !held ==> world.dst.pc == HIdle
    {
      var free: bool := *;
      if world.dst.mount != Serving && free {
        Destination(HandbackSet(HandbackLease(world, true, HSaveStopped(false)), world.dst.local.(status := HStopped), HSaveStopped(false)));
        held := true;
      } else if world.dst.local.status == HPreparing && world.dst.mount == Serving {
        Destination(HandbackGoto(world, HStopping(false)));
        ghost var stopping := run;
        held := StopDestination(false);
        NoDestinationEvents(stopping, |old(run)|, run);
      } else {
        Destination(HandbackGoto(world, HIdle));
        held := false;
      }
    }

    method RetryStopped() returns (code: HandbackCode)
      requires Valid() && world.dst.pc == HSaveStopped(false) && world.dst.lease
      modifies this
      ensures Valid() && old(run) <= run && world.dst.pc == HIdle
      ensures HandbackOutcome(old(run), run, code) && Attempted(code)
      ensures HandbackHonest(code)
      ensures code == HandbackNonconverged && savesWork ==> world.dst.record == Some(world.dst.local)
    {
      var saved: bool := *;
      saved := saved || savesWork;
      Destination(HandbackSaveStopped(world, saved, false));
      ghost var stopped := run;
      if !saved {
        Destination(HandbackLease(world, false, HIdle));
        return HandbackStateFailed;
      }
      code := FinishHandback();
      OutcomeOfRest(old(run), stopped, run, code);
    }

    /** Drain, prepare, commit; restart only after the one definitive refusal. */
    method FinishHandback() returns (code: HandbackCode)
      requires Valid() && world.dst.pc == HSaveHandingBack && world.dst.lease
      modifies this
      ensures Valid() && old(run) <= run && world.dst.pc == HIdle
      ensures HandbackOutcome(old(run), run, code) && Attempted(code)
      ensures HandbackHonest(code)
      ensures code == HandbackNonconverged && savesWork ==> world.dst.record == Some(world.dst.local)
    {
      var saved := SaveHandback(HSendPrepare, HReleaseDone(false));
      if !saved {
        Destination(HandbackLease(world, false, HIdle));
        return HandbackStateFailed;
      }
      ghost var handing := run;
      PrepareAndCommit();
      NoDestinationEvents(handing, |old(run)|, run);
      ghost var answered := run;
      if world.dst.pc == HReleaseFailed(true) {
        code := AbandonHandback();
      } else if world.dst.pc == HReleaseFailed(false) {
        code := RecordUnknown();
      } else {
        code := RecordRelease();
      }
      OutcomeOfRest(old(run), answered, run, code);
    }

    /** After the one definitive refusal the lease is given up and the destination restarted. */
    method AbandonHandback() returns (code: HandbackCode)
      requires Valid() && world.dst.pc == HReleaseFailed(true) && world.dst.lease
      modifies this
      ensures Valid() && old(run) <= run && world.dst.pc == HIdle
      ensures HandbackOutcome(old(run), run, code) && code in {HandbackNonconverged, HandbackRecoveryFailed}
      ensures HandbackHonest(code)
      ensures code == HandbackNonconverged && savesWork ==> world.dst.record == Some(world.dst.local)
    {
      AnsweredFacts(run);
      Destination(HandbackLease(world, false, HEnsureDiverged));
      ghost var free := run;
      code := RecoverDestination(HandbackNonconverged);
      DestinationEventsStay(run, |free| - 1, run, |old(run)|);
    }

    /** After any ambiguous answer the lease is given up and the destination stays down under
        a retryable record, whether or not the record can be updated. */
    method RecordUnknown() returns (code: HandbackCode)
      requires Valid() && world.dst.pc == HReleaseFailed(false) && world.dst.lease
      modifies this
      ensures Valid() && old(run) <= run && world.dst.pc == HIdle
      ensures HandbackOutcome(old(run), run, code) && code in {HandbackResultUnknown, HandbackStateFailed}
      ensures !DestinationAtRestart(run, |old(run)|) && world.dst.mount != Serving
      ensures world.dst.record.Some? && world.dst.record.value.status in {HandingBack, HandbackUnknown}
      ensures HandbackHonest(code)
    {
      HandbackFacts(run);
      Destination(HandbackSet(HandbackLease(world, false, HSaveLast), world.dst.local.(status := HandbackUnknown), HSaveLast));
      ghost var ending := run;
      var saved := SaveHandback(HIdle, HIdle);
      NoDestinationEvents(ending, |old(run)|, run);
      code := if saved then HandbackResultUnknown else HandbackStateFailed;
    }

    method RecordRelease() returns (code: HandbackCode)
      requires Valid() && world.dst.pc == HSaveReleased && world.dst.lease
      modifies this
      ensures Valid() && old(run) <= run && world.dst.pc == HIdle
      ensures HandbackOutcome(old(run), run, code) && !DestinationAtRestart(run, |old(run)|) && Attempted(code)
      ensures HandbackHonest(code)
    {
      HandbackFacts(run);
      var saved := SaveHandback(HReleaseDone(true), HReleaseDone(false));
      ghost var recorded := run;
      var written: bool := *;      // the lease was released and the result printed
      written := written || outputWorks;
      if !saved || !written {
        Destination(HandbackLease(world, false, HIdle));
        NoDestinationEvents(recorded, |old(run)|, run);
        return if saved then HandbackOutputFailed else HandbackStateFailed;
      }
      Destination(HandbackLease(world, false, HIdle).(handedBack := world.handedBack + {world.dst.local.result.value}));
      NoDestinationEvents(recorded, |old(run)|, run);
      code := HandbackEnvelope;
    }

    /** The two requests, and what their answers allow next. */
    method PrepareAndCommit()
      requires Valid() && world.dst.pc == HSendPrepare && world.dst.lease
      modifies this
      ensures Valid() && old(run) <= run && world.dst.lease && world.dst.record == old(world.dst.record)
      ensures world.dst.pc == HSaveReleased || world.dst.pc.HReleaseFailed?
      ensures !DestinationAtRestart(run, |old(run)|)
    {
      var drained: bool := *;
      var digest: nat := *;
      if !drained {
        Destination(HandbackGoto(world, HReleaseFailed(false)));
        return;
      }
      Destination(HandbackSend(world, PrepareReq(digest), HAwaitPrepare(digest)));
      ghost var sent := run;
      var still: bool := *;
      var mail := world.dst.mail;
      if mail == Some(Refused(Diverged)) {
        Destination(HandbackGoto(world, HReleaseFailed(true)));
      } else if mail.Some? && ReleasedFor(mail.value, digest) && still {
        Destination(HandbackSet(world, HandbackRecord(HandbackReleased, Some(mail.value.proof)), HSaveReleased));
      } else if mail.Some? && PreparedFor(mail.value, digest) && still {
        CommitHandback(digest);
      } else {
        Destination(HandbackGoto(world, HReleaseFailed(false)));
      }
      NoDestinationEvents(sent, |old(run)|, run);
    }

    method CommitHandback(digest: nat)
      requires Valid() && world.dst.pc == HAwaitPrepare(digest) && world.dst.lease
      requires world.dst.mail.Some? && PreparedFor(world.dst.mail.value, digest)
      modifies this
      ensures Valid() && old(run) <= run && world.dst.lease && world.dst.record == old(world.dst.record)
      ensures world.dst.pc == HSaveReleased || world.dst.pc.HReleaseFailed?
      ensures !DestinationAtRestart(run, |old(run)|)
    {
      Destination(HandbackGoto(world, HSendCommit(digest)));
      ghost var prepared := run;
      SendCommit(digest);
      NoDestinationEvents(prepared, |old(run)|, run);
    }

    method SendCommit(digest: nat)
      requires Valid() && world.dst.pc == HSendCommit(digest) && world.dst.lease
      modifies this
      ensures Valid() && old(run) <= run && world.dst.lease && world.dst.record == old(world.dst.record)
      ensures world.dst.pc == HSaveReleased || world.dst.pc.HReleaseFailed?
      ensures !DestinationAtRestart(run, |old(run)|)
    {
      Destination(HandbackSend(world, CommitReq(digest), HAwaitCommit(digest)));
      ghost var sent := run;
      ReadCommit(digest);
      NoDestinationEvents(sent, |old(run)|, run);
    }

    method ReadCommit(digest: nat)
      requires Valid() && world.dst.pc == HAwaitCommit(digest) && world.dst.lease
      modifies this
      ensures Valid() && old(run) <= run && world.dst.lease && world.dst.record == old(world.dst.record)
      ensures world.dst.pc == HSaveReleased || world.dst.pc.HReleaseFailed?
      ensures !DestinationAtRestart(run, |old(run)|)
    {
      var still: bool := *;
      var mail := world.dst.mail;
      if mail == Some(Refused(Diverged)) {
        Destination(HandbackGoto(world, HReleaseFailed(true)));
      } else if mail.Some? && ReleasedFor(mail.value, digest) && still {
        Destination(HandbackSet(world, HandbackRecord(HandbackReleased, Some(mail.value.proof)), HSaveReleased));
      } else {
        Destination(HandbackGoto(world, HReleaseFailed(false)));
      }
    }
  }
}
