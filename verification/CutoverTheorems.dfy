/** The safety of a cutover over whole runs: crashes, failed saves, lost, late and repeated
    requests included. */
module CutoverTheorems {
  import opened Common
  import opened SealStore
  import opened CutoverModel
  import opened CutoverInvariant

  /** Single writer, end to end: no reachable world has a source process alive while the
      destination serves. */
  lemma SingleWriter(ws: seq<World>, i: nat)
    requires Run(ws) && i < |ws|
    ensures !(ws[i].src.mount != Down && ws[i].dst.mount == Serving)
  {
    RunInv(ws, i);
    var w := ws[i];
    if w.dst.mount == Serving {
      assert !HandbackReleasedAt(w.server);
    }
  }

  /** Once a receipt is disclosed, a command reaches the restart routine only with a durable
      proof that the server returned ownership of that very seal. */
  lemma RestartNeedsProof(ws: seq<World>, i: nat, e: Envelope)
    requires Run(ws) && i < |ws| && e in ws[i].disclosed
    requires SourceRestarts(ws[i].src.pc)
    ensures ws[i].src.pc == EnsureResumed
    ensures HasProof(ws[i].src)
    ensures var p := ws[i].src.record.value.proof.value;
            p.status == SourceResumedStatus && p.sealId == e.receipt.sealId && p.sourceResumed
    ensures SourceResumedAt(ws[i].server)
  {
    RunInv(ws, i);
  }

  // ------------------------------------------------------ what stays once it has happened

  predicate HandbackDone(d: Destination) {
    d.record.Some? && d.record.value.status == HandbackReleased
  }

  predicate SourceDone(s: Source) {
    s.record.Some? && Terminal(s.record.value.status)
  }

  ghost predicate NoNewIssue(w: World, w': World) {
    forall d :: IssueReq(d) in w'.sent ==> IssueReq(d) in w.sent
  }

  ghost predicate NoNewHandback(w: World, w': World) {
    forall d :: (PrepareReq(d) in w'.sent ==> PrepareReq(d) in w.sent) && (CommitReq(d) in w'.sent ==> CommitReq(d) in w.sent)
  }

  /** What an earlier world of a run fixes for every later one. */
  ghost predicate Persists(w: World, w': World) {
    && (HandbackReleasedAt(w.server) ==> HandbackReleasedAt(w'.server))
    && w.disclosed <= w'.disclosed && w.handedBack <= w'.handedBack
    && (SourceDone(w.src) ==> w'.src.record == w.src.record)
    && (HasReceipt(w.src) ==> HasReceipt(w'.src) && SameReceipt(w.src.record.value.receipt, w'.src.record.value.receipt) && NoNewIssue(w, w'))
    && (HandbackDone(w.dst) ==> w'.dst.record == w.dst.record && NoNewHandback(w, w'))
  }

  lemma SourceStepPersists(w: World, w': World)
    requires SourceInv(w.src) && SourceOwnershipInv(w) && SourceStep(w, w')
    ensures Persists(w, w')
  {
    SourceStepScope(w, w');
    SourceStepDisclosure(w, w');
    assert HasReceipt(w.src) ==> !w.src.pc.SendIssue?;
  }

  lemma HandbackStepPersists(w: World, w': World)
    requires HandbackLocalInv(w.dst) && HandbackStep(w, w')
    ensures Persists(w, w')
  {
    HandbackStepScope(w, w');
    assert w.handedBack <= w'.handedBack;
  }

  lemma ServerPersists(w: World, w': World)
    requires ServerHandles(w, w')
    ensures Persists(w, w')
  {
    var q, id, now, delivered: bool :| q in w.sent && w' == Handled(w, q, id, now, delivered);
    assert w'.server == Handle(w.server, w.workspace, q, id, now).0;
  }

  lemma EnvironmentPersists(w: World, w': World)
    requires EnvironmentStep(w, w')
    ensures Persists(w, w')
  {
  }

  lemma StepPersists(w: World, w': World)
    requires Inv(w) && Step(w, w')
    ensures Persists(w, w')
  {
    if SourceStep(w, w') { SourceStepPersists(w, w'); }
    else if HandbackStep(w, w') { HandbackStepPersists(w, w'); }
    else if ServerHandles(w, w') { ServerPersists(w, w'); }
    else if EnvironmentStep(w, w') { EnvironmentPersists(w, w'); }
  }

  lemma StepPersistsAt(ws: seq<World>, k: nat)
    requires Run(ws) && k + 1 < |ws|
    ensures Persists(ws[k], ws[k + 1])
  {
    RunInv(ws, k);
    StepPersists(ws[k], ws[k + 1]);
  }

  lemma {:induction false} ChainPersists(ws: seq<World>, i: nat, j: nat)
    requires i <= j < |ws|
    requires forall k :: 0 <= k < |ws| - 1 ==> Persists(ws[k], ws[k + 1])
    ensures Persists(ws[i], ws[j])
  {
    if i < j {
      ChainPersists(ws, i, j - 1);
      PersistsTransitive(ws[i], ws[j - 1], ws[j]);
    }
  }

  lemma RunPersists(ws: seq<World>, i: nat, j: nat)
    requires Run(ws) && i <= j < |ws|
    ensures Persists(ws[i], ws[j])
  {
    forall k | 0 <= k < |ws| - 1 ensures Persists(ws[k], ws[k + 1]) {
      StepPersistsAt(ws, k);
    }
    ChainPersists(ws, i, j);
  }

  lemma PersistsTransitive(a: World, b: World, c: World)
    requires Persists(a, b) && Persists(b, c)
    ensures Persists(a, c)
  {
  }

  /** From the moment the server releases the destination's ownership, however its reply
      fares, the destination never serves again and no handback command reaches a restart. */
  lemma ReleasedNeverRestarts(ws: seq<World>, i: nat, j: nat)
    requires Run(ws) && i <= j < |ws| && HandbackReleasedAt(ws[i].server)
    ensures ws[j].dst.mount != Serving && !HandbackRestarts(ws[j].dst.pc)
  {
    RunPersists(ws, i, j);
    RunInv(ws, j);
  }

  /** A release is reported, durably or in the answer printed, only if it happened. */
  lemma ReportedReleaseHappened(ws: seq<World>, i: nat)
    requires Run(ws) && i < |ws|
    requires ws[i].handedBack != {} || HandbackDone(ws[i].dst)
    ensures HandbackReleasedAt(ws[i].server)
  {
    RunInv(ws, i);
  }

  // --------------------------------------------------------- after an ambiguous answer

  /** Down, under a record that a retry takes up or that says released, with no command on
      its way to a restart or to giving up. */
  predicate StaysDown(d: Destination) {
    && d.mount != Serving
    && d.record.Some? && d.record.value.status in {HStopped, HandingBack, HandbackUnknown, HandbackReleased}
    && !FirstAttempt(d.pc) && !HandbackRestarts(d.pc) && !(d.pc.HSaveLast? && GaveUp(d.local.status))
  }

  lemma DownStepStaysDown(w: World, w': World)
    requires HandbackLeaseInv(w.dst) && HandbackLocalInv(w.dst) && HandbackStep(w, w') && StaysDown(w.dst)
    ensures StaysDown(w'.dst) || w'.dst.pc == HEnsureDiverged
  {
  }

  lemma OthersLeaveItDown(w: World, w': World)
    requires StaysDown(w.dst)
    requires SourceStep(w, w') || ServerHandles(w, w') || EnvironmentStep(w, w') || w' == SourceCrash(w) || w' == HandbackCrash(w)
    ensures StaysDown(w'.dst)
  {
    if SourceStep(w, w') { SourceStepScope(w, w'); }
  }

  predicate KeepsDown(d: Destination, d': Destination) {
    StaysDown(d) ==> StaysDown(d') || d'.pc == HEnsureDiverged
  }

  lemma KeepsDownAt(ws: seq<World>, k: nat)
    requires Run(ws) && k + 1 < |ws|
    ensures KeepsDown(ws[k].dst, ws[k + 1].dst)
  {
    RunInv(ws, k);
    if StaysDown(ws[k].dst) { DownAfterStep(ws[k], ws[k + 1]); }
  }

  lemma AmbiguousIsDown(ws: seq<World>, i: nat)
    requires Run(ws) && i < |ws| && ws[i].dst.pc == HReleaseFailed(false)
    ensures StaysDown(ws[i].dst)
  {
    RunInv(ws, i);
  }

  ghost function Destinations(ws: seq<World>): (ds: seq<Destination>)
    ensures |ds| == |ws| && forall k :: 0 <= k < |ds| ==> ds[k] == ws[k].dst
  {
    seq(|ws|, k requires 0 <= k < |ws| => ws[k].dst)
  }

  lemma {:induction false} ChainStaysDown(ds: seq<Destination>, i: nat, j: nat)
    requires i <= j < |ds| && StaysDown(ds[i])
    requires forall k, l :: 0 <= k < l < |ds| && l == k + 1 ==> KeepsDown(ds[k], ds[l])
    ensures StaysDown(ds[j]) || exists k :: i < k <= j && ds[k].pc == HEnsureDiverged
  {
    if i < j {
      ChainStaysDown(ds, i, j - 1);
      assert KeepsDown(ds[j - 1], ds[j]);
    }
  }

  lemma DestinationsKeepDown(ws: seq<World>)
    requires Run(ws)
    ensures forall k, l :: 0 <= k < l < |ws| && l == k + 1 ==> KeepsDown(Destinations(ws)[k], Destinations(ws)[l])
  {
    forall k, l | 0 <= k < l < |ws| && l == k + 1 ensures KeepsDown(Destinations(ws)[k], Destinations(ws)[l]) {
      KeepsDownAt(ws, k);
    }
  }

  /** Every ambiguous answer leaves the destination stopped in a retryable state.  Whatever
      follows (a failed save, a kill, any number of retries), at every later moment it is
      still down under a retryable or released record, unless a command was definitively
      refused in between. */
  lemma AmbiguityLeavesItDown(ws: seq<World>, i: nat, j: nat)
    requires Run(ws) && i <= j < |ws| && ws[i].dst.pc == HReleaseFailed(false)
    ensures StaysDown(ws[j].dst) || exists k :: i < k <= j && ws[k].dst.pc == HEnsureDiverged
  {
    AmbiguousIsDown(ws, i);
    DestinationsKeepDown(ws);
    var ds := Destinations(ws);
    ChainStaysDown(ds, i, j);
    if !StaysDown(ds[j]) {
      var k :| i < k <= j && ds[k].pc == HEnsureDiverged;
      assert ws[k].dst.pc == HEnsureDiverged;
    }
  }

  lemma DownAfterStep(w: World, w': World)
    requires Inv(w) && Step(w, w') && StaysDown(w.dst)
    ensures StaysDown(w'.dst) || w'.dst.pc == HEnsureDiverged
  {
    if HandbackStep(w, w') { DownStepStaysDown(w, w'); } else { OthersLeaveItDown(w, w'); }
  }

  // -------------------------------------------------------------------- records, leases

  /** Every durable source record is well formed. */
  lemma RecordsWellFormed(ws: seq<World>, i: nat)
    requires Run(ws) && i < |ws| && ws[i].src.record.Some?
    ensures var r := ws[i].src.record.value;
            && (r.status in {Preparing, Stopped, PresealFailed, RecoveryFailed} ==> r.receipt.None?)
            && (r.status in {Sealed, Resuming, OwnershipConflict} ==> r.receipt.Some? && r.receipt.value.hasToken)
            && (r.proof.Some? ==>
                  && r.status in {Resuming, Ready} && r.receipt.Some? && r.proof.value.sealId == r.receipt.value.sealId
                  && r.proof.value.status == SourceResumedStatus && r.proof.value.sourceResumed)
            && (r.status == Ready && r.receipt.Some? ==> r.proof.Some? && !r.receipt.value.hasToken)
  {
    RunInv(ws, i);
  }

  /** The effects that acquire a lease, and those that release one. */
  predicate SourceAcquires(pc: SourcePC) { pc.Stopping? }
  predicate SourceReleases(pc: SourcePC) { pc.Probed? || pc.ReleaseLease? }
  predicate HandbackAcquires(pc: HandbackPC) { pc.HStopping? || pc.HAcquire? }
  predicate HandbackReleases(pc: HandbackPC) { pc.HProbed? || pc.HReleaseUnsaved? || pc.HReleaseFailed? || pc.HReleaseDone? }

  /** The lease is held exactly between acquiring and releasing it: an effect that acquires
      finds it free and one that releases finds it held, so each acquisition is released
      exactly once; it is never held when idle or at a restart, nor beside a serving daemon;
      and a mount whose stop succeeded is down. */
  lemma LeaseDiscipline(ws: seq<World>, i: nat)
    requires Run(ws) && i < |ws|
    ensures var s := ws[i].src;
            && (s.lease <==> SourceHolds(s.pc))
            && (SourceAcquires(s.pc) ==> !s.lease) && (SourceReleases(s.pc) ==> s.lease)
            && (s.pc == Idle || SourceRestarts(s.pc) ==> !s.lease)
            && (s.lease ==> s.mount != Serving) && (s.lease && s.pc != Probed ==> s.mount == Down)
    ensures var d := ws[i].dst;
            && (d.lease <==> HandbackHolds(d.pc))
            && (HandbackAcquires(d.pc) ==> !d.lease) && (HandbackReleases(d.pc) ==> d.lease)
            && (d.pc == HIdle || HandbackRestarts(d.pc) ==> !d.lease)
            && (d.lease ==> d.mount != Serving)
            && (d.pc == HSaveStopped(true) || d.pc == HReleaseUnsaved ==> d.mount == Down)
  {
    RunInv(ws, i);
  }

  /** A command brings a mount up only at the effects called restarts, and takes or gives up a
      lease only at the effects called so. */
  lemma SourceEffects(w: World, w': World)
    requires SourceStep(w, w')
    ensures w.src.mount != Serving && w'.src.mount == Serving ==> SourceRestarts(w.src.pc)
    ensures !w.src.lease && w'.src.lease ==> SourceAcquires(w.src.pc)
    ensures w.src.lease && !w'.src.lease ==> SourceReleases(w.src.pc)
    ensures w'.src.record != w.src.record ==> w'.src.record == Some(w.src.local)
  {
  }

  lemma HandbackEffects(w: World, w': World)
    requires HandbackStep(w, w')
    ensures w.dst.mount != Serving && w'.dst.mount == Serving ==> HandbackRestarts(w.dst.pc)
    ensures !w.dst.lease && w'.dst.lease ==> HandbackAcquires(w.dst.pc)
    ensures w.dst.lease && !w'.dst.lease ==> HandbackReleases(w.dst.pc)
    ensures w'.dst.record != w.dst.record ==> w'.dst.record == Some(w.dst.local)
  {
  }

  lemma DownUnderLeaseStep(w: World, w': World)
    requires Step(w, w')
    ensures w.src.lease && w'.src.lease && w.src.mount == Down ==> w'.src.mount == Down
    ensures w.dst.lease && w'.dst.lease && w.dst.mount == Down && HandbackHolds(w.dst.pc) ==> w'.dst.mount == Down
  {
    if SourceStep(w, w') { SourceStepScope(w, w'); }
    else if HandbackStep(w, w') { HandbackStepScope(w, w'); }
    else if ServerHandles(w, w') { ServerLeavesMounts(w, w'); }
  }

  lemma ServerLeavesMounts(w: World, w': World)
    requires ServerHandles(w, w')
    ensures w'.src.mount == w.src.mount && w'.dst.mount == w.dst.mount
  {
  }

  predicate KeptDown(w: World, w': World) {
    && (w.src.lease && w'.src.lease && w.src.mount == Down ==> w'.src.mount == Down)
    && (w.dst.lease && w'.dst.lease && w.dst.mount == Down ==> w'.dst.mount == Down)
  }

  lemma {:induction false} ChainKeptDown(ws: seq<World>, i: nat, j: nat)
    requires i <= j < |ws| && forall k, l :: 0 <= k < l < |ws| && l == k + 1 ==> KeptDown(ws[k], ws[l])
    ensures (forall k :: i <= k <= j ==> ws[k].src.lease) && ws[i].src.mount == Down ==> ws[j].src.mount == Down
    ensures (forall k :: i <= k <= j ==> ws[k].dst.lease) && ws[i].dst.mount == Down ==> ws[j].dst.mount == Down
  {
    if i < j {
      ChainKeptDown(ws, i, j - 1);
      assert KeptDown(ws[j - 1], ws[j]);
    }
  }

  lemma RunKeptDown(ws: seq<World>)
    requires Run(ws)
    ensures forall k, l :: 0 <= k < l < |ws| && l == k + 1 ==> KeptDown(ws[k], ws[l])
  {
    forall k, l | 0 <= k < l < |ws| && l == k + 1 ensures KeptDown(ws[k], ws[l]) {
      DownUnderLeaseAt(ws, k);
    }
  }

  /** No daemon comes up under a held lease: a mount that was down stays down until the
      command lets go. */
  lemma DownWhileHeld(ws: seq<World>, i: nat, j: nat)
    requires Run(ws) && i <= j < |ws|
    ensures (forall k :: i <= k <= j ==> ws[k].src.lease) && ws[i].src.mount == Down ==> ws[j].src.mount == Down
    ensures (forall k :: i <= k <= j ==> ws[k].dst.lease) && ws[i].dst.mount == Down ==> ws[j].dst.mount == Down
  {
    RunKeptDown(ws);
    ChainKeptDown(ws, i, j);
  }

  lemma DownUnderLeaseAt(ws: seq<World>, k: nat)
    requires Run(ws) && k + 1 < |ws|
    ensures ws[k].src.lease && ws[k + 1].src.lease && ws[k].src.mount == Down ==> ws[k + 1].src.mount == Down
    ensures ws[k].dst.lease && ws[k + 1].dst.lease && ws[k].dst.mount == Down ==> ws[k + 1].dst.mount == Down
  {
    RunInv(ws, k);
    DownUnderLeaseStep(ws[k], ws[k + 1]);
  }

  // ------------------------------------------------------------ terminal states, replay

  /** ready, recovery-failed and ownership-conflict are never left. */
  lemma TerminalNeverLeft(ws: seq<World>, i: nat, j: nat)
    requires Run(ws) && i <= j < |ws| && ws[i].src.record.Some?
    requires ws[i].src.record.value.status in {Ready, RecoveryFailed, OwnershipConflict}
    ensures ws[j].src.record == ws[i].src.record
  {
    RunPersists(ws, i, j);
  }

  /** A sealed lifecycle keeps its receipt and never asks for another seal. */
  lemma SealedOnce(ws: seq<World>, i: nat, j: nat)
    requires Run(ws) && i <= j < |ws| && HasReceipt(ws[i].src)
    ensures HasReceipt(ws[j].src)
    ensures var a, b := ws[i].src.record.value.receipt.value, ws[j].src.record.value.receipt.value;
            a.sealId == b.sealId && a.state == b.state && a.sealedAt == b.sealedAt
    ensures forall d :: IssueReq(d) in ws[j].sent ==> IssueReq(d) in ws[i].sent
  {
    RunPersists(ws, i, j);
  }

  /** Every checkpoint-seal that prints an envelope prints the same one, and so does every
      handback that prints a result, at any two moments of a run. */
  lemma ReplaysAreIdentical(ws: seq<World>, i: nat, j: nat)
    requires Run(ws) && i <= j < |ws|
    ensures forall e, e' :: e in ws[i].disclosed && e' in ws[j].disclosed ==> e == e'
    ensures forall p, p' :: p in ws[i].handedBack && p' in ws[j].handedBack ==> p == p'
  {
    RunPersists(ws, i, j);
    RunInv(ws, j);
  }

  /** Once released is durable it stays, and no later command repeats the handback. */
  lemma ReleasedOnce(ws: seq<World>, i: nat, j: nat)
    requires Run(ws) && i <= j < |ws| && ws[i].dst.record.Some? && ws[i].dst.record.value.status == HandbackReleased
    ensures ws[j].dst.record == ws[i].dst.record
    ensures forall d :: (PrepareReq(d) in ws[j].sent ==> PrepareReq(d) in ws[i].sent)
                        && (CommitReq(d) in ws[j].sent ==> CommitReq(d) in ws[i].sent)
  {
    RunPersists(ws, i, j);
  }
}
