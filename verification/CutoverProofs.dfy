/** What the commands print and keep is what the server has: receipts, proofs and results,
    traced through every run from the server's reply to the durable record. */
module CutoverProofs {
  import opened Common
  import opened SealStore
  import opened CutoverModel
  import opened CutoverInvariant

  /** The receipt of the seal the server keeps. */
  predicate Attests(server: Server, r: Receipt) {
    SealOf(server).Some? && r.sealId == SealOf(server).value.id && r.state == SealOf(server).value.issued
  }

  predicate ProvesRelease(server: Server, p: Ownership) {
    && SealOf(server).Some? && p.sealId == SealOf(server).value.id && p.status == ReleasedStatus
    && SealOf(server).value.released == Some(p.state)
  }

  predicate ProvesResume(server: Server, p: Ownership) {
    && SealOf(server).Some? && p.sealId == SealOf(server).value.id && p.status == SourceResumedStatus
    && SealOf(server).value.released == Some(p.state) && SealOf(server).value.resumed == ResumedBy(RESUME_KEY)
  }

  /** A result the destination may record: the server's, and of the state it asked for. */
  predicate Recordable(w: World, r: Option<Ownership>) {
    r.Some? && ProvesRelease(w.server, r.value) && !r.value.sourceResumed && PrepareReq(r.value.state.digest) in w.sent
  }

  predicate SourceProofs(server: Server, s: Source) {
    && (s.mail.Some? && s.mail.value.Issued? ==> Attests(server, s.mail.value.receipt))
    && (s.pc.ReleaseLease? && s.pc.issued.Some? ==> Attests(server, s.pc.issued.value))
    && (s.pc != Idle && s.local.receipt.Some? ==> Attests(server, s.local.receipt.value))
    && (s.record.Some? && s.record.value.receipt.Some? ==> Attests(server, s.record.value.receipt.value))
    && (ProofMail(s) ==> ProvesResume(server, s.mail.value.reply.proof))
    && (s.pc != Idle && s.local.proof.Some? ==> ProvesResume(server, s.local.proof.value))
    && (s.record.Some? && s.record.value.proof.Some? ==> ProvesResume(server, s.record.value.proof.value))
  }

  predicate HandbackProofs(w: World) {
    var d := w.dst;
    && (d.mail.Some? && d.mail.value.Granted? && d.mail.value.proof.status == ReleasedStatus ==> ProvesRelease(w.server, d.mail.value.proof))
    && (d.pc.HAwaitPrepare? || d.pc.HSendCommit? || d.pc.HAwaitCommit? ==> PrepareReq(d.pc.digest) in w.sent)
    && (d.pc.HSaveReleased? || d.pc == HReleaseDone(true) ==> Recordable(w, d.local.result))
    && (d.record.Some? && d.record.value.result.Some? ==> Recordable(w, d.record.value.result))
    && (d.pc != HIdle && !d.pc.HSaveReleased? && !d.pc.HReleaseDone? ==> d.local.result.None?)
  }

  predicate ProofInv(w: World) {
    SourceProofs(w.server, w.src) && HandbackProofs(w)
  }

  /** The server's record of the seal only gains. */
  predicate Gains(a: Server, b: Server) {
    SealOf(a).Some? ==>
      && SealOf(b).Some? && SealOf(b).value.id == SealOf(a).value.id && SealOf(b).value.issued == SealOf(a).value.issued
      && (SealOf(a).value.released.Some? ==> SealOf(b).value.released == SealOf(a).value.released)
      && (SealOf(a).value.resumed != NotResumed ==> SealOf(b).value.resumed == SealOf(a).value.resumed)
  }

  lemma HandleGains(server: Server, current: Workspace, q: Request, id: nat, now: nat)
    ensures Gains(server, Handle(server, current, q, id, now).0)
  {
  }

  lemma EnvironmentGains(w: World, w': World)
    requires EnvironmentStep(w, w')
    ensures Gains(w.server, w'.server) && w'.sent == w.sent && w'.src.pc == w.src.pc && w'.dst == w.dst.(mount := w'.dst.mount)
    ensures w'.src == w.src.(mount := w'.src.mount, mail := w'.src.mail) && (ProofMail(w'.src) ==> w'.src.mail == w.src.mail)
    ensures w'.src.mail != w.src.mail ==> w'.src.mail.Some? && w'.src.mail.value.Answered?
  {
  }

  /** What the server said stays true while its record gains. */
  lemma SourceProofsStay(a: Server, b: Server, s: Source)
    requires Gains(a, b) && SourceProofs(a, s)
    ensures SourceProofs(b, s)
  {
  }

  lemma HandbackProofsStay(w: World, w': World)
    requires Gains(w.server, w'.server) && w.sent <= w'.sent && w'.dst == w.dst.(mount := w'.dst.mount) && HandbackProofs(w)
    ensures HandbackProofs(w')
  {
  }

  lemma ResumeStepProofs(w: World, w': World)
    requires SourceInv(w.src) && SourceProofs(w.server, w.src) && SourceStep(w, w') && ResumePath(w.src.pc)
    ensures SourceProofs(w.server, w'.src)
  {
  }

  lemma StopStepProofs(w: World, w': World)
    requires SourceInv(w.src) && SourceProofs(w.server, w.src) && SourceStep(w, w') && StopPath(w.src.pc)
    ensures SourceProofs(w.server, w'.src)
  {
  }

  lemma BeginStepProofs(w: World, w': World)
    requires SourceInv(w.src) && SourceProofs(w.server, w.src) && SourceStep(w, w') && w.src.pc == Idle
    ensures SourceProofs(w.server, w'.src)
  {
  }

  lemma SealStepProofs(w: World, w': World)
    requires SourceInv(w.src) && SourceProofs(w.server, w.src) && SourceStep(w, w')
    requires !StopPath(w.src.pc) && !ResumePath(w.src.pc) && w.src.pc != Idle
    ensures SourceProofs(w.server, w'.src)
  {
  }

  lemma SourceStepProofs(w: World, w': World)
    requires SourceInv(w.src) && SourceProofs(w.server, w.src) && SourceStep(w, w')
    ensures SourceProofs(w'.server, w'.src)
  {
    SourceStepScope(w, w');
    if ResumePath(w.src.pc) { ResumeStepProofs(w, w'); }
    else if StopPath(w.src.pc) { StopStepProofs(w, w'); }
    else if w.src.pc == Idle { BeginStepProofs(w, w'); }
    else { SealStepProofs(w, w'); }
  }

  lemma SourceStepLeavesHandback(w: World, w': World)
    requires HandbackProofs(w) && SourceStep(w, w')
    ensures HandbackProofs(w')
  {
    SourceStepScope(w, w');
    assert w.sent <= w'.sent;
    HandbackProofsStay(w, w');
  }

  lemma HandbackStepProofs(w: World, w': World)
    requires HandbackLocalInv(w.dst) && HandbackProofs(w) && HandbackStep(w, w')
    ensures HandbackProofs(w')
  {
    HandbackStepScope(w, w');
    assert w.sent <= w'.sent;
  }

  /** A reply says what the server's record then says. */
  lemma ReplyToSource(server: Server, current: Workspace, q: Request, id: nat, now: nat, s: Source)
    requires SealOf(server).Some? ==> WellFormed(SealOf(server).value)
    requires SourceProofs(server, s) && ((s.pc == AwaitIssue && q.IssueReq?) || (s.pc == AwaitResume && q.ResumeReq?))
    ensures var (server', reply) := Handle(server, current, q, id, now); SourceProofs(server', s.(mail := Some(reply)))
  {
    var (server', reply) := Handle(server, current, q, id, now);
    HandleGains(server, current, q, id, now);
    SourceProofsStay(server, server', s);
    if reply.Issued? { assert Attests(server', reply.receipt); }
    if q.ResumeReq? && server.Present? { ResumeGrantedIff(server.seal, current, RESUME_KEY); }
  }

  lemma ReplyToHandback(w: World, q: Request, id: nat, now: nat)
    requires SealOf(w.server).Some? ==> WellFormed(SealOf(w.server).value)
    requires HandbackProofs(w) && HandbackAwaits(w, q)
    ensures HandbackProofs(Handled(w, q, id, now, true))
  {
    var (server, reply) := Handle(w.server, w.workspace, q, id, now);
    HandleGains(w.server, w.workspace, q, id, now);
    HandbackProofsStay(w, w.(server := server));
    if w.server.Present? {
      HandbackEffect(w.server.seal, w.workspace, if q.PrepareReq? then Prepare else Commit, CONSUMER_KEY, HANDBACK_KEY, q.digest);
    }
  }

  lemma ServerProofs(w: World, w': World)
    requires Inv(w) && ProofInv(w) && ServerHandles(w, w')
    ensures ProofInv(w')
  {
    var q, id, now, delivered: bool :| q in w.sent && w' == Handled(w, q, id, now, delivered);
    HandleGains(w.server, w.workspace, q, id, now);
    var plain := w.(server := Handle(w.server, w.workspace, q, id, now).0);
    SourceProofsStay(w.server, plain.server, w.src);
    HandbackProofsStay(w, plain);
    if delivered && SourceAwaits(w, q) {
      ReplyToSource(w.server, w.workspace, q, id, now, w.src);
      HandbackProofsStay(w, w');
    } else if delivered && HandbackAwaits(w, q) {
      ReplyToHandback(w, q, id, now);
    }
  }

  lemma EnvironmentProofs(w: World, w': World)
    requires ProofInv(w) && EnvironmentStep(w, w')
    ensures ProofInv(w')
  {
    EnvironmentGains(w, w');
    SourceProofsStay(w.server, w'.server, w.src);
    HandbackProofsStay(w, w');
  }

  lemma StepProofs(w: World, w': World)
    requires Inv(w) && ProofInv(w) && Step(w, w')
    ensures ProofInv(w')
  {
    if SourceStep(w, w') {
      SourceStepProofs(w, w');
      SourceStepLeavesHandback(w, w');
    } else if HandbackStep(w, w') {
      HandbackStepScope(w, w');
      HandbackStepProofs(w, w');
    } else if ServerHandles(w, w') {
      ServerProofs(w, w');
    } else if EnvironmentStep(w, w') {
      EnvironmentProofs(w, w');
    }
  }

  lemma StepProofsAt(ws: seq<World>, k: nat)
    requires Run(ws) && k + 1 < |ws| && ProofInv(ws[k])
    ensures ProofInv(ws[k + 1])
  {
    RunInv(ws, k);
    StepProofs(ws[k], ws[k + 1]);
  }

  lemma {:induction false} RunProofs(ws: seq<World>, i: nat)
    requires Run(ws) && i < |ws|
    ensures ProofInv(ws[i])
  {
    if i > 0 {
      RunProofs(ws, i - 1);
      StepProofsAt(ws, i - 1);
    }
  }

  /** Every envelope ever printed names the seal the server keeps and the state it sealed. */
  lemma EnvelopeIsTheSeal(ws: seq<World>, i: nat, e: Envelope)
    requires Run(ws) && i < |ws| && e in ws[i].disclosed
    ensures SealOf(ws[i].server).Some?
    ensures var seal := SealOf(ws[i].server).value; e.receipt.sealId == seal.id && e.receipt.state == seal.issued && e.receipt.hasToken
  {
    RunInv(ws, i);
    RunProofs(ws, i);
  }

  /** Every result ever printed is the server's release: of that seal, at the state released,
      with the digest the destination asked to be prepared. */
  lemma ResultIsTheRelease(ws: seq<World>, i: nat, p: Ownership)
    requires Run(ws) && i < |ws| && p in ws[i].handedBack
    ensures SealOf(ws[i].server).Some?
    ensures var seal := SealOf(ws[i].server).value;
            && p.sealId == seal.id && seal.released == Some(p.state) && p.status == ReleasedStatus && !p.sourceResumed
    ensures PrepareReq(p.state.digest) in ws[i].sent
  {
    RunInv(ws, i);
    RunProofs(ws, i);
  }

  /** Every durable proof is the server's return of ownership to this very resume key. */
  lemma ProofIsTheReturn(ws: seq<World>, i: nat)
    requires Run(ws) && i < |ws| && ws[i].src.record.Some? && ws[i].src.record.value.proof.Some?
    ensures SealOf(ws[i].server).Some?
    ensures var seal := SealOf(ws[i].server).value; var p := ws[i].src.record.value.proof.value;
            && p.sealId == seal.id && p.status == SourceResumedStatus
            && seal.released == Some(p.state) && seal.resumed == ResumedBy(RESUME_KEY)
  {
    RunProofs(ws, i);
  }

  // ------------------------------------------------------------------- issuing a seal

  /** A seal is issued exactly when there is none and the workspace stands at the digest the
      source expects, or the one there is untouched and the workspace still where it was. */
  lemma IssueAnsweredIff(server: Server, current: Workspace, expected: nat, id: nat, now: nat)
    ensures var (server', reply) := Handle(server, current, IssueReq(expected), id, now);
            && (reply.Issued? <==>
                  || (server == Absent && current.digest == expected)
                  || (server.Present? && server.seal == Seal(server.seal.id, current, None, None, None, NotResumed)))
            && (reply.Issued? ==> server'.Present? && reply.receipt == Receipt(server'.seal.id, current, true, now))
            && (server' != server ==>
                  server == Absent && current.digest == expected && server' == Present(Seal(id, current, None, None, None, NotResumed)))
  {
  }

  /** Requests are handled under the keys of this lifecycle and this handback. */
  lemma RequestsUseTheirKeys(seal: Seal, current: Workspace, n: nat, id: nat, now: nat)
    requires WellFormed(seal)
    ensures Handle(Present(seal), current, ResumeReq, id, now).1.reply.Granted? ==>
              Handle(Present(seal), current, ResumeReq, id, now).0.seal.resumed == ResumedBy(RESUME_KEY)
    ensures Handle(Present(seal), current, PrepareReq(n), id, now).1.reply.Granted?
            || Handle(Present(seal), current, CommitReq(n), id, now).1.reply.Granted? ==>
              seal.consumer == Some(CONSUMER_KEY)
    ensures Handle(Present(seal), current, CommitReq(n), id, now).0 != Present(seal) ==>
              seal.preparation == Some(Preparation(HANDBACK_KEY, current))
  {
  }
}
