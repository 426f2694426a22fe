/**
 mount verify-seal: stop the destination, compare it with the consumed receipt, record the
 verdict and bring the destination back.  First the effects of the command as a transition
 system, in which any save may fail, the command may be killed between any two effects and
 be run again, and the mount may die or be started by others; then the command as the
 program it is.
 */
module DestinationVerification {
  import opened Common
  import opened CutoverModel

  datatype VerificationStatus =
    | VPreparing | VStopped | Verifying | Verified | Converged
    | DivergedSourceReady | FailedSourceReady | VRecoveryFailed

  /** The printed verdict: what was observed and when. */
  datatype Verdict = Verdict(digest: nat, verifiedAt: nat)

  datatype VerificationRecord = VerificationRecord(status: VerificationStatus, result: Option<Verdict>)

  /** Where a verify command stands: the effect it performs next.  A new attempt is one
      that was not interrupted with the destination stopped. */
  datatype VerifyPC =
    | VIdle | VReplay
    | VEnsurePreparing | VSavePreparing | VStopping(anew: bool) | VProbed(anew: bool) | VSaveStopped
    | VAcquire | VSaveVerifying | VCompare
    | VReleaseFailed(diverged: bool) | VEnsureFailed(diverged: bool)
    | VSaveVerified | VReleaseVerified | VEnsureVerified | VSaveConverged | VPrint
    | VSaveLast

  datatype Host = Host(
    mount: Mount,
    lease: bool,                            // the running command holds the mount lease
    record: Option<VerificationRecord>,     // durable
    pc: VerifyPC,
    local: VerificationRecord,              // the command's copy
    verifications: nat,                     // how often the receipt was compared with the mount
    printed: set<Verdict>)

  predicate VerifyInit(s: Host) {
    !s.lease && s.record == None && s.pc == VIdle && s.verifications == 0 && s.printed == {}
  }

  // -------------------------------------------------------------- effects of a command

  function Goto(s: Host, pc: VerifyPC): Host {
    s.(pc := pc)
  }

  function SetLocal(s: Host, r: VerificationRecord, pc: VerifyPC): Host {
    s.(local := r, pc := pc)
  }

  function Save(s: Host, ok: bool, then_: VerifyPC, else_: VerifyPC): Host {
    s.(record := if ok then Some(s.local) else s.record, pc := if ok then then_ else else_)
  }

  function Lease(s: Host, held: bool, pc: VerifyPC): Host {
    s.(lease := held, pc := pc)
  }

  function Restart(s: Host): Host {
    s.(mount := Restarted(s.mount, s.lease))
  }

  function Printed(s: Host, v: Verdict): Host {
    s.(printed := s.printed + {v}, pc := VIdle)
  }

  /** verify-seal up to its first effect. */
  function Begin(s: Host): Host {
    match s.record
    case None => if s.mount == Serving then SetLocal(s, VerificationRecord(VPreparing, None), VSavePreparing) else s
    case Some(r) =>
      match r.status
      case Converged => if r.result.Some? then Goto(s, VReplay) else s
      case Verified => if r.result.Some? then SetLocal(s, r, VEnsureVerified) else s
      case VPreparing => Goto(s, VEnsurePreparing)
      case VStopped | Verifying => SetLocal(s, r, VAcquire)
      case DivergedSourceReady | FailedSourceReady | VRecoveryFailed => s
  }

  function FailedStatus(diverged: bool): VerificationStatus {
    if diverged then DivergedSourceReady else FailedSourceReady
  }

  ghost predicate CommandStep(s: Host, s': Host) {
    match s.pc
    case VIdle => s' == Begin(s)
    case VReplay =>
      || (s.mount == Serving && s.record.Some? && s.record.value.result.Some? && s' == Printed(s, s.record.value.result.value))
      || s' == Goto(s, VIdle)
    case VEnsurePreparing =>
      || s' == Restart(s)
      || (s.mount == Serving && s' == SetLocal(s, VerificationRecord(VPreparing, None), VSavePreparing))
      || s' == Goto(s, VIdle)
    case VSavePreparing => exists ok :: s' == Save(s, ok, VStopping(true), VIdle)
    case VStopping(anew) =>
      || (s.mount != Serving && s' == Lease(s, true, VProbed(anew)))
      || s' == Goto(s, VEnsureFailed(false))
    case VProbed(anew) =>
      if s.mount != Down then s' == Lease(s, false, VStopping(anew))
      else s' == SetLocal(s, s.local.(status := if anew then VStopped else Verifying), if anew then VSaveStopped else VSaveVerifying)
    case VSaveStopped =>
      || s' == SetLocal(Save(s, true, VSaveVerifying, VSaveVerifying), s.local.(status := Verifying), VSaveVerifying)
      || s' == Goto(s, VReleaseFailed(false))
    case VAcquire =>
      || (s.mount != Serving && s' == SetLocal(Lease(s, true, VSaveVerifying), s.local.(status := Verifying), VSaveVerifying))
      || (s.mount == Serving && s' == Goto(s, VStopping(false)))
      || s' == Goto(s, VEnsureFailed(false))
      || s' == Goto(s, VIdle)
    case VSaveVerifying => exists ok :: s' == Save(s, ok, VCompare, VCompare)
    case VCompare =>
      || s' == Goto(s, VReleaseFailed(true)).(verifications := s.verifications + 1)
      || (exists v :: s' == SetLocal(s, VerificationRecord(Verified, Some(v)), VSaveVerified).(verifications := s.verifications + 1))
    case VReleaseFailed(diverged) => s' == Lease(s, false, VEnsureFailed(diverged))
    case VEnsureFailed(diverged) =>
      || s' == Restart(s)
      || (s.mount == Serving && s' == SetLocal(s, s.local.(status := FailedStatus(diverged)), VSaveLast))
      || s' == SetLocal(s, s.local.(status := VRecoveryFailed), VSaveLast)
    case VSaveVerified => exists ok :: s' == Save(s, ok, VReleaseVerified, VReleaseFailed(false))
    case VReleaseVerified => s' == Lease(s, false, VEnsureVerified)
    case VEnsureVerified =>
      || s' == Restart(s)
      || (s.mount == Serving && s' == SetLocal(s, s.local.(status := Converged), VSaveConverged))
      || s' == Goto(s, VIdle)                                // the lease was not released cleanly
      || s' == SetLocal(s, s.local.(status := VRecoveryFailed), VSaveLast)
    case VSaveConverged => exists ok :: s' == Save(s, ok, VPrint, VIdle)
    case VPrint =>
      || (s.local.result.Some? && s' == Printed(s, s.local.result.value))
      || s' == Goto(s, VIdle)
    case VSaveLast => exists ok :: s' == Save(s, ok, VIdle, VIdle)
  }

  /** The command is killed; the operating system drops its lease. */
  function Killed(s: Host): Host {
    s.(pc := VIdle, lease := false)
  }

  /** What the host does by itself: daemons exit or die, and others may start the mount, which
      comes up only if it can take the lease. */
  ghost predicate HostStep(s: Host, s': Host) {
    || (exists m :: MountFalls(s.mount, m) && s' == s.(mount := m))
    || s' == Restart(s)
  }

  ghost predicate VerifyStep(s: Host, s': Host) {
    CommandStep(s, s') || HostStep(s, s') || s' == Killed(s)
  }

  ghost predicate VerifyRun(ss: seq<Host>) {
    && |ss| > 0 && VerifyInit(ss[0])
    && forall i, j :: 0 <= i < j < |ss| && j == i + 1 ==> VerifyStep(ss[i], ss[j])
  }

  // ------------------------------------------------------------------------- invariant

  /** A verdict is kept from the moment it is durable; before that there is none. */
  predicate RecordOk(r: VerificationRecord) {
    match r.status
    case VPreparing | VStopped | Verifying => r.result.None?
    case Verified | Converged => r.result.Some?
    case DivergedSourceReady | FailedSourceReady | VRecoveryFailed => true
  }

  predicate Settled(r: VerificationRecord) {
    r.status == Verified || r.status == Converged
  }

  predicate Holds(pc: VerifyPC) {
    || pc.VProbed? || pc.VSaveStopped? || pc.VSaveVerifying? || pc.VCompare?
    || pc.VReleaseFailed? || pc.VSaveVerified? || pc.VReleaseVerified?
  }

  predicate Acquires(pc: VerifyPC) { pc.VStopping? || pc.VAcquire? }
  predicate Releases(pc: VerifyPC) { pc.VProbed? || pc.VReleaseFailed? || pc.VReleaseVerified? }
  predicate Restarts(pc: VerifyPC) { pc.VEnsurePreparing? || pc.VEnsureFailed? || pc.VEnsureVerified? }

  /** The effects between the durable verdict and the end of the command. */
  predicate Concluding(pc: VerifyPC) {
    pc.VReleaseVerified? || pc.VEnsureVerified? || pc.VSaveConverged?
  }

  predicate LeaseInv(s: Host) {
    && (s.lease <==> Holds(s.pc)) && (s.lease ==> s.mount != Serving)
    && (s.pc == VSaveStopped ==> s.mount == Down)
  }

  /** The verdict is out of reach of every save that could lose it. */
  predicate VerdictInv(s: Host) {
    && (s.record.Some? ==> RecordOk(s.record.value))
    && (s.pc.VSavePreparing? || s.pc.VStopping? || s.pc.VProbed? || s.pc.VSaveStopped? || s.pc.VAcquire?
        || s.pc.VSaveVerifying? || s.pc.VCompare? || s.pc == VReleaseFailed(true) || s.pc == VEnsureFailed(true)
        ==> s.local.result.None?)
    && (s.pc.VSavePreparing? ==> s.local.status == VPreparing)
    && (s.pc.VSaveStopped? ==> s.local.status == VStopped)
    && (s.pc.VSaveVerifying? ==> s.local.status == Verifying)
    && (s.pc.VSaveVerified? ==> s.local.status == Verified && s.local.result.Some?)
    && (s.pc.VSaveConverged? ==> s.local.status == Converged)
    && (s.pc.VSaveLast? ==> s.local.status in {DivergedSourceReady, FailedSourceReady, VRecoveryFailed})
    && (Concluding(s.pc) ==> s.record.Some? && s.record.value.status == Verified && s.local.result == s.record.value.result)
    && (s.pc.VPrint? ==> s.record == Some(s.local) && s.local.status == Converged)
    && (s.pc.VReplay? ==> s.record.Some? && s.record.value.status == Converged)
    && (s.record.Some? && s.record.value.status == Converged ==> s.pc in {VIdle, VReplay, VPrint})
    && (s.record.Some? && s.record.value.status == Verified ==>
          s.pc == VIdle || Concluding(s.pc)
          || (s.pc.VSaveLast? && s.local.status == VRecoveryFailed && s.local.result == s.record.value.result))
  }

  ghost predicate Inv(s: Host) {
    && LeaseInv(s) && VerdictInv(s)
    && (forall v <- s.printed :: s.record == Some(VerificationRecord(Converged, Some(v))))
  }

  lemma CommandLease(s: Host, s': Host)
    requires LeaseInv(s) && CommandStep(s, s')
    ensures LeaseInv(s')
  {
  }

  lemma HeldVerdict(s: Host, s': Host)
    requires VerdictInv(s) && CommandStep(s, s') && Holds(s.pc)
    ensures VerdictInv(s')
  {
  }

  lemma RestartVerdict(s: Host, s': Host)
    requires VerdictInv(s) && CommandStep(s, s') && Restarts(s.pc)
    ensures VerdictInv(s')
  {
  }

  lemma BeginVerdict(s: Host, s': Host)
    requires VerdictInv(s) && CommandStep(s, s') && s.pc == VIdle
    ensures VerdictInv(s')
  {
  }

  lemma OtherwiseVerdict(s: Host, s': Host)
    requires VerdictInv(s) && CommandStep(s, s') && !Holds(s.pc) && !Restarts(s.pc) && s.pc != VIdle
    ensures VerdictInv(s')
  {
  }

  lemma CommandVerdict(s: Host, s': Host)
    requires VerdictInv(s) && CommandStep(s, s')
    ensures VerdictInv(s')
  {
    if Holds(s.pc) { HeldVerdict(s, s'); }
    else if Restarts(s.pc) { RestartVerdict(s, s'); }
    else if s.pc == VIdle { BeginVerdict(s, s'); }
    else { OtherwiseVerdict(s, s'); }
  }

  lemma CommandPrinted(s: Host, s': Host)
    requires Inv(s) && CommandStep(s, s')
    ensures forall v <- s'.printed :: s'.record == Some(VerificationRecord(Converged, Some(v)))
  {
  }

  lemma StepInv(s: Host, s': Host)
    requires Inv(s) && VerifyStep(s, s')
    ensures Inv(s')
  {
    if CommandStep(s, s') {
      CommandLease(s, s');
      CommandVerdict(s, s');
      CommandPrinted(s, s');
    }
  }

  lemma {:induction false} RunInv(ss: seq<Host>, i: nat)
    requires VerifyRun(ss) && i < |ss|
    ensures Inv(ss[i])
  {
    if i > 0 {
      RunInv(ss, i - 1);
      StepInv(ss[i - 1], ss[i]);
    }
  }

  // --------------------------------------------------- theorems, across kills and retries

  /** Lease discipline: an effect that acquires finds the lease free, one that releases finds
      it held, so each acquisition is released exactly once (by the command, or by the kill);
      it is never held when idle or at a restart, nor beside a serving daemon; and a first
      stop that succeeded left the mount down. */
  lemma LeaseDiscipline(ss: seq<Host>, i: nat)
    requires VerifyRun(ss) && i < |ss|
    ensures var s := ss[i];
            && (s.lease <==> Holds(s.pc)) && (Acquires(s.pc) ==> !s.lease) && (Releases(s.pc) ==> s.lease)
            && (s.pc == VIdle || Restarts(s.pc) ==> !s.lease) && (s.lease ==> s.mount != Serving)
            && (s.pc == VSaveStopped ==> s.mount == Down)
  {
    RunInv(ss, i);
  }

  /** The command brings the mount up, and takes or gives up the lease, only at the effects
      called so. */
  lemma CommandEffects(s: Host, s': Host)
    requires CommandStep(s, s')
    ensures s.mount != Serving && s'.mount == Serving ==> Restarts(s.pc)
    ensures !s.lease && s'.lease ==> Acquires(s.pc)
    ensures s.lease && !s'.lease ==> Releases(s.pc)
    ensures s'.record != s.record ==> s'.record == Some(s.local)
    ensures s'.verifications != s.verifications ==> s'.verifications == s.verifications + 1 && s.pc == VCompare && s.lease == s'.lease
  {
  }

  lemma RecordsWellFormed(ss: seq<Host>, i: nat)
    requires VerifyRun(ss) && i < |ss| && ss[i].record.Some?
    ensures var r := ss[i].record.value;
            && (r.status in {VPreparing, VStopped, Verifying} ==> r.result.None?)
            && (r.status in {Verified, Converged} ==> r.result.Some?)
  {
    RunInv(ss, i);
  }

  /** A verdict that is durable and settled, wherever the commands have got to since. */
  predicate Kept(s: Host, v: Verdict, times: nat) {
    && s.verifications == times && s.record.Some? && s.record.value.result == Some(v)
    && (Settled(s.record.value) || (s.record.value.status == VRecoveryFailed && s.pc == VIdle))
  }

  lemma CommandKeeps(s: Host, s': Host, v: Verdict, times: nat)
    requires VerdictInv(s) && CommandStep(s, s') && Kept(s, v, times)
    ensures Kept(s', v, times)
  {
  }

  lemma StepKeeps(s: Host, s': Host, v: Verdict, times: nat)
    requires VerdictInv(s) && VerifyStep(s, s') && Kept(s, v, times)
    ensures Kept(s', v, times)
  {
    if CommandStep(s, s') { CommandKeeps(s, s', v, times); }
  }

  lemma {:induction false} RunKeeps(ss: seq<Host>, i: nat, j: nat, v: Verdict, times: nat)
    requires VerifyRun(ss) && i <= j < |ss| && Kept(ss[i], v, times)
    ensures Kept(ss[j], v, times)
  {
    if i < j {
      RunKeeps(ss, i, j - 1, v, times);
      KeepsAt(ss, j - 1, v, times);
    }
  }

  lemma KeepsAt(ss: seq<Host>, k: nat, v: Verdict, times: nat)
    requires VerifyRun(ss) && k + 1 < |ss| && Kept(ss[k], v, times)
    ensures Kept(ss[k + 1], v, times)
  {
    RunInv(ss, k);
    StepKeeps(ss[k], ss[k + 1], v, times);
  }

  /** Once a verdict is durable, no later command, however often commands are killed and
      rerun, compares again or changes it. */
  lemma VerifiedOnce(ss: seq<Host>, i: nat, j: nat)
    requires VerifyRun(ss) && i <= j < |ss| && ss[i].record.Some? && ss[i].record.value.status in {Verified, Converged}
    ensures ss[j].verifications == ss[i].verifications
    ensures ss[j].record.Some? && ss[j].record.value.result == ss[i].record.value.result
  {
    RunInv(ss, i);
    RunKeeps(ss, i, j, ss[i].record.value.result.value, ss[i].verifications);
  }

  lemma {:induction false} PrintedStays(ss: seq<Host>, i: nat, j: nat)
    requires VerifyRun(ss) && i <= j < |ss|
    ensures ss[i].printed <= ss[j].printed
  {
    if i < j {
      PrintedStays(ss, i, j - 1);
      StepPrints(ss[j - 1], ss[j]);
    }
  }

  lemma StepPrints(s: Host, s': Host)
    requires VerifyStep(s, s')
    ensures s.printed <= s'.printed
  {
  }

  /** Every verdict ever printed is the durable, converged one: all of them are equal. */
  lemma VerdictsAgree(ss: seq<Host>, i: nat, j: nat)
    requires VerifyRun(ss) && i <= j < |ss|
    ensures forall v, v' :: v in ss[i].printed && v' in ss[j].printed ==> v == v'
    ensures forall v <- ss[i].printed :: ss[j].record == Some(VerificationRecord(Converged, Some(v)))
  {
    PrintedStays(ss, i, j);
    RunInv(ss, j);
  }

  // ------------------------------------------------------- what happened since a moment

  /** A command held the destination's lease or set out to stop it. */
  ghost predicate Touched(run: seq<Host>, from: nat) {
    exists k :: from <= k < |run| && (run[k].lease || run[k].pc.VStopping?)
  }

  /** The restart routine was reached, and saw the destination serve. */
  ghost predicate AtRestart(run: seq<Host>, from: nat) {
    exists k :: from <= k < |run| && Restarts(run[k].pc)
  }

  ghost predicate Back(run: seq<Host>, from: nat) {
    exists k :: from <= k < |run| && Restarts(run[k].pc) && run[k].mount == Serving
  }

  lemma EventsStay(run: seq<Host>, from: nat, later: seq<Host>, from': nat)
    requires run <= later && from' <= from
    ensures Back(run, from) ==> Back(later, from')
    ensures AtRestart(run, from) ==> AtRestart(later, from')
  {
    if k :| from <= k < |run| && Restarts(run[k].pc) { assert later[k] == run[k]; }
    if k :| from <= k < |run| && Restarts(run[k].pc) && run[k].mount == Serving { assert later[k] == run[k]; }
  }

  lemma NoEvents(run: seq<Host>, from: nat, later: seq<Host>)
    requires run <= later && from <= |run|
    ensures !Touched(run, from) && !Touched(later, |run|) ==> !Touched(later, from)
  {
    assert forall k :: 0 <= k < |run| ==> later[k] == run[k];
  }

  // -------------------------------------------------------------- the command as a program

  datatype VerifyCode =
    | VerdictPrinted | VerifyOutputFailed | VerifyStateFailed | VerifyRecoveryFailed | VerifyStopFailed
    | VerifyNonconverged | VerifyTerminal | VerifyNoActiveMount

  /** Nobody else touches a running command; a mount cannot come up under its lease. */
  predicate Undisturbed(s: Host, s': Host) {
    s' == s.(mount := s'.mount) && (s.lease && s.mount != Serving ==> s'.mount != Serving)
    && (s.lease && s.mount == Down ==> s'.mount == Down)
  }

  lemma HostLeavesCommandAlone(s: Host, s': Host)
    requires HostStep(s, s')
    ensures Undisturbed(s, s')
  {
  }

  lemma {:induction false} HostLeavesCommandAloneFor(ss: seq<Host>, i: nat)
    requires i < |ss| && forall k, l :: 0 <= k < l < |ss| && l == k + 1 ==> HostStep(ss[k], ss[l])
    ensures Undisturbed(ss[0], ss[i])
  {
    if i > 0 {
      HostLeavesCommandAloneFor(ss, i - 1);
      HostLeavesCommandAlone(ss[i - 1], ss[i]);
    }
  }

  predicate PrintedDurably(s: Host) {
    s.record.Some? && s.record.value.status == Converged && s.record.value.result.Some? && s.printed == {s.record.value.result.value}
  }

  /** What each exit of verify-seal promises about the states it added to a run. */
  ghost predicate Outcome(before: seq<Host>, after: seq<Host>, code: VerifyCode) {
    && before <= after && |before| > 0
    && var s := after[|after| - 1];
       && (code == VerdictPrinted ==> PrintedDurably(s))
       && (code != VerdictPrinted ==> s.printed == before[|before| - 1].printed)
       && s.verifications <= before[|before| - 1].verifications + 1
       && (Touched(after, |before|) ==>
             AtRestart(after, |before|) && (code == VerifyRecoveryFailed || Back(after, |before|)))
  }

  /** The outcome of a part is that of the whole. */
  lemma OutcomeOfRest(before: seq<Host>, middle: seq<Host>, after: seq<Host>, code: VerifyCode)
    requires before <= middle && |before| > 0 && !Touched(middle, |before|) && Outcome(middle, after, code)
    requires middle[|middle| - 1].printed == before[|before| - 1].printed
    requires middle[|middle| - 1].verifications == before[|before| - 1].verifications
    ensures Outcome(before, after, code)
  {
    EventsStay(after, |middle|, after, |before|);
    NoEvents(middle, |before|, after);
  }

  lemma IdleFacts(ss: seq<Host>)
    requires VerifyRun(ss) && ss[|ss| - 1].pc == VIdle
    ensures var s := ss[|ss| - 1]; !s.lease && (s.record.Some? && Settled(s.record.value) ==> s.record.value.result.Some?)
  {
    RunInv(ss, |ss| - 1);
  }

  class Verifier {
    var s: Host
    ghost var run: seq<Host>
    ghost var starts: nat       // how often an effect of a command brought the mount up
    const savesWork: bool       // on this host no save of a record ever fails
    const outputWorks: bool     // nor any write of a result

    /** The command blames the disk or the output only where they can fail. */
    predicate Honest(code: VerifyCode) {
      (code == VerifyStateFailed ==> !savesWork) && (code == VerifyOutputFailed ==> !outputWorks)
    }

    ghost predicate Valid()
      reads this
    {
      VerifyRun(run) && run[|run| - 1] == s
    }

    constructor (host: Host, savesWork: bool, outputWorks: bool)
      requires VerifyInit(host)
      ensures Valid() && s == host && run == [host]
      ensures this.savesWork == savesWork && this.outputWorks == outputWorks
    {
      this.savesWork, this.outputWorks := savesWork, outputWorks;
      s := host;
      run := [host];
      starts := 0;
    }

    /** The command is killed: whatever it was doing, the next one finds the same promises. */
    method Kill()
      requires Valid()
      modifies this
      ensures Valid() && old(run) < run && s == Killed(old(s)) && s.pc == VIdle && !s.lease
    {
      s := Killed(s);
      run := run + [s];
    }

    /** The schedule between two effects of the command: callers know only this contract. */
    method Others()
      requires Valid()
      modifies this
      ensures Valid() && old(run) <= run && starts == old(starts) && Undisturbed(old(s), s)
      ensures forall k :: |old(run)| - 1 <= k < |run| ==> Undisturbed(old(s), run[k])
    {
    }

    method Effect(next: Host)
      requires Valid() && CommandStep(s, next)
      modifies this
      ensures Valid() && old(run) < run && Undisturbed(next, s)
      ensures !next.lease && !next.pc.VStopping? ==> !Touched(run, |old(run)|)
      ensures starts == old(starts) + (if old(s).mount != Serving && next.mount == Serving then 1 else 0)
    {
      starts := starts + (if s.mount != Serving && next.mount == Serving then 1 else 0);
      s := next;
      run := run + [next];
      Others();
    }

    method TrySave(then_: VerifyPC, else_: VerifyPC) returns (ok: bool)
      requires Valid()
      requires forall b :: CommandStep(s, Save(s, b, then_, else_))
      modifies this
      ensures Valid() && old(run) < run && Undisturbed(Save(old(s), ok, then_, else_), s)
      ensures !old(s).lease && !(if ok then then_ else else_).VStopping? ==> !Touched(run, |old(run)|)
      ensures savesWork ==> ok
    {
      ok := *;
      ok := ok || savesWork;
      Effect(Save(s, ok, then_, else_));
    }

    /** Success means the old process is gone and its lease is ours; failure means we hold
        nothing and are at the restart. */
    method Stop(anew: bool) returns (stopped: bool)
      requires Valid() && s.pc == VStopping(anew) && !s.lease
      modifies this
      ensures s.verifications == old(s.verifications)
      ensures Valid() && old(run) <= run && s.record == old(s.record) && s.printed == old(s.printed)
      ensures stopped ==> s.lease && s.mount == Down && s.pc == (if anew then VSaveStopped else VSaveVerifying)
      ensures !stopped ==> !s.lease && s.pc == VEnsureFailed(false)
    {
      var polls: nat := *;
      while polls > 0
        invariant Valid() && old(run) <= run && s.pc == VStopping(anew) && !s.lease
        invariant s.record == old(s.record) && s.printed == old(s.printed) && s.verifications == old(s.verifications)
      {
        if s.mount != Serving {
          Effect(Lease(s, true, VProbed(anew)));
          if s.mount == Down {
            Effect(SetLocal(s, s.local.(status := if anew then VStopped else Verifying), if anew then VSaveStopped else VSaveVerifying));
            return true;
          }
          Effect(Lease(s, false, VStopping(anew)));
        } else {
          Others();
        }
        polls := polls - 1;
      }
      Effect(Goto(s, VEnsureFailed(false)));
      stopped := false;
    }

    /** Poll for readiness, starting the mount at most once and only with the lease let go. */
    method Ensure() returns (ready: bool)
      requires Valid() && Restarts(s.pc) && !s.lease
      modifies this
      ensures Valid() && old(run) <= run && s == old(s).(mount := s.mount) && starts <= old(starts) + 1
      ensures !Touched(run, |old(run)|) && AtRestart(run, |old(run)| - 1)
      ensures ready ==> s.mount == Serving && Back(run, |old(run)| - 1)
    {
      assert run[|run| - 1] == s;
      var polls: nat := *;
      var started := false;
      ready := false;
      while polls > 0
        invariant Valid() && old(run) <= run && s == old(s).(mount := s.mount) && !Touched(run, |old(run)|)
        invariant starts <= old(starts) + (if started then 1 else 0)
      {
        var answers: bool := *;
        if s.mount == Serving && answers {
          ready := true;
          assert run[|run| - 1] == s;
          return;
        }
        ghost var before := run;
        if s.mount == Down && !started {
          var comesUp: bool := *;
          if !comesUp {
            return;
          }
          Effect(Restart(s));
          started := true;
        } else {
          Others();
        }
        NoEvents(before, |old(run)|, run);
        polls := polls - 1;
      }
    }

    /** After a failure: bring the destination back, and say how it ended. */
    method Recover(failure: VerifyCode) returns (code: VerifyCode)
      requires Valid() && s.pc.VEnsureFailed? && !s.lease
      requires failure in {VerifyStateFailed, VerifyStopFailed, VerifyNonconverged, VerifyRecoveryFailed}
      modifies this
      ensures s.verifications == old(s.verifications)
      ensures Valid() && old(run) <= run && s.pc == VIdle && s.printed == old(s.printed)
      ensures AtRestart(run, |old(run)| - 1)
      ensures code == VerifyRecoveryFailed || (code == failure && Back(run, |old(run)| - 1))
      ensures code != VerifyRecoveryFailed ==>
                s.local.status == if old(s.pc.diverged) then DivergedSourceReady else FailedSourceReady
      ensures s.record == old(s.record) || s.record == Some(s.local)
      ensures s.local.status in {DivergedSourceReady, FailedSourceReady, VRecoveryFailed}
      ensures savesWork ==> s.record == Some(s.local)
    {
      var ready := Ensure();
      ghost var seen := run;
      Effect(SetLocal(s, s.local.(status := if ready then FailedStatus(s.pc.diverged) else VRecoveryFailed), VSaveLast));
      var _ := TrySave(VIdle, VIdle);
      EventsStay(seen, |old(run)| - 1, run, |old(run)| - 1);
      code := if ready then failure else VerifyRecoveryFailed;
    }

    /** mount verify-seal.  A call in which the destination was stopped or its lease held ends
        after the restart routine saw it serve again, or reports a failed recovery; a verdict
        is printed only when it is durable and converged; and once a verdict is durable it is
        only replayed. */
    method VerifySeal() returns (code: VerifyCode)
      requires Valid() && s.pc == VIdle
      modifies this
      ensures Valid() && old(run) <= run && s.pc == VIdle && !s.lease
      ensures Outcome(old(run), run, code)
      ensures Touched(run, |old(run)|) ==> Back(run, |old(run)|) || (code == VerifyRecoveryFailed && AtRestart(run, |old(run)|))
      ensures code == VerifyNoActiveMount <==> old(s.record.None? && s.mount != Serving)
      ensures code == VerifyTerminal <==>
                old(s.record.Some? && s.record.value.status in {FailedSourceReady, VRecoveryFailed})
      ensures old(s.record.Some? && s.record.value.status == DivergedSourceReady) ==> code == VerifyNonconverged && s == old(s)
      ensures old(s.record.Some? && s.record.value.status == Converged) ==>
                code in {VerdictPrinted, VerifyOutputFailed, VerifyRecoveryFailed} && s.record == old(s.record)
      ensures old(s.record.Some? && s.record.value.status == Verified) ==>
                code in {VerdictPrinted, VerifyOutputFailed, VerifyStateFailed, VerifyRecoveryFailed}
      ensures code == VerifyNonconverged && old(s.record.None?) ==>
                s.local.status == DivergedSourceReady
      ensures old(s.record.Some? && Settled(s.record.value)) ==>
                && s.verifications == old(s.verifications)
                && s.record.Some? && s.record.value.result == old(s.record.value.result)
      ensures Honest(code)
    {
      IdleFacts(run);
      if s.record.None? {
        code := VerifyFresh();
      } else {
        match s.record.value.status {
          case Converged => code := Replay();
          case Verified => code := FinishVerified();
          case VPreparing => code := VerifyAgain();
          case VStopped => code := ContinueStopped();
          case Verifying => code := ContinueStopped();
          case DivergedSourceReady => code := VerifyNonconverged;
          case FailedSourceReady => code := VerifyTerminal;
          case VRecoveryFailed => code := VerifyTerminal;
        }
      }
      IdleFacts(run);
      if old(s.record.Some? && Settled(s.record.value)) {
        VerifiedOnce(run, |old(run)| - 1, |run| - 1);
      }
    }

    method Replay() returns (code: VerifyCode)
      requires Valid() && s.pc == VIdle && !s.lease
      requires s.record.Some? && s.record.value.status == Converged && s.record.value.result.Some?
      modifies this
      ensures Valid() && old(run) <= run && s.pc == VIdle
      ensures Outcome(old(run), run, code)
      ensures code in {VerdictPrinted, VerifyOutputFailed, VerifyRecoveryFailed} && s.record == old(s.record)
      ensures Honest(code)
    {
      Effect(Begin(s));
      ghost var begun := run;
      var answers: bool := *;
      if s.mount != Serving || !answers {
        Effect(Goto(s, VIdle));
        NoEvents(begun, |old(run)|, run);
        return VerifyRecoveryFailed;
      }
      var written: bool := *;
      written := written || outputWorks;
      if !written {
        Effect(Goto(s, VIdle));
        NoEvents(begun, |old(run)|, run);
        return VerifyOutputFailed;
      }
      Effect(Printed(s, s.record.value.result.value));
      NoEvents(begun, |old(run)|, run);
      RunInv(run, |run| - 1);
      code := VerdictPrinted;
    }

    /** A verdict is durable but the destination was not seen coming back. */
    method FinishVerified() returns (code: VerifyCode)
      requires Valid() && s.pc == VIdle && !s.lease
      requires s.record.Some? && s.record.value.status == Verified && s.record.value.result.Some?
      modifies this
      ensures Valid() && old(run) <= run && s.pc == VIdle
      ensures Outcome(old(run), run, code)
      ensures code in {VerdictPrinted, VerifyOutputFailed, VerifyStateFailed, VerifyRecoveryFailed}
      ensures Honest(code)
    {
      Effect(Begin(s));
      ghost var begun := run;
      code := Conclude(true);
      NoEvents(begun, |old(run)|, run);
    }

    /** The verdict is durable and the lease released: restart, record convergence, print. */
    method Conclude(released: bool) returns (code: VerifyCode)
      requires Valid() && s.pc == VEnsureVerified && !s.lease
      modifies this
      ensures s.verifications == old(s.verifications)
      ensures Valid() && old(run) <= run && s.pc == VIdle && !Touched(run, |old(run)|)
      ensures code == VerdictPrinted ==> PrintedDurably(s)
      ensures code != VerdictPrinted ==> s.printed == old(s.printed)
      ensures AtRestart(run, |old(run)| - 1) && (code == VerifyRecoveryFailed || Back(run, |old(run)| - 1))
      ensures code in {VerdictPrinted, VerifyOutputFailed, VerifyStateFailed, VerifyRecoveryFailed}
      ensures Honest(code)
    {
      var ready := Ensure();
      ghost var seen := run;
      if !ready {
        Effect(SetLocal(s, s.local.(status := VRecoveryFailed), VSaveLast));
        ghost var failing := run;
        var _ := TrySave(VIdle, VIdle);
        NoEvents(seen, |old(run)|, failing);
        NoEvents(failing, |old(run)|, run);
        EventsStay(seen, |old(run)| - 1, run, |old(run)| - 1);
        return VerifyRecoveryFailed;
      }
      if !released {
        Effect(Goto(s, VIdle));
        NoEvents(seen, |old(run)|, run);
        EventsStay(seen, |old(run)| - 1, run, |old(run)| - 1);
        return VerifyRecoveryFailed;
      }
      Effect(SetLocal(s, s.local.(status := Converged), VSaveConverged));
      NoEvents(seen, |old(run)|, run);
      ghost var converging := run;
      code := RecordConverged();
      NoEvents(converging, |old(run)|, run);
      EventsStay(seen, |old(run)| - 1, run, |old(run)| - 1);
    }

    method RecordConverged() returns (code: VerifyCode)
      requires Valid() && s.pc == VSaveConverged && !s.lease
      modifies this
      ensures s.verifications == old(s.verifications)
      ensures Valid() && old(run) <= run && s.pc == VIdle && !Touched(run, |old(run)|)
      ensures code == VerdictPrinted ==> PrintedDurably(s)
      ensures code != VerdictPrinted ==> s.printed == old(s.printed)
      ensures code in {VerdictPrinted, VerifyOutputFailed, VerifyStateFailed}
      ensures Honest(code)
    {
      var saved := TrySave(VPrint, VIdle);
      if !saved {
        return VerifyStateFailed;
      }
      ghost var durable := run;
      RunInv(run, |run| - 1);
      var written: bool := *;
      written := written || outputWorks;
      if written {
        Effect(Printed(s, s.local.result.value));
        RunInv(run, |run| - 1);
        code := VerdictPrinted;
      } else {
        Effect(Goto(s, VIdle));
        code := VerifyOutputFailed;
      }
      NoEvents(durable, |old(run)|, run);
    }

    /** A first verification of the running destination. */
    method VerifyFresh() returns (code: VerifyCode)
      requires Valid() && s.pc == VIdle && !s.lease && s.record == None
      modifies this
      ensures Valid() && old(run) <= run && s.pc == VIdle
      ensures Outcome(old(run), run, code)
      ensures code == VerifyNoActiveMount <==> old(s.mount) != Serving
      ensures code != VerifyTerminal && (code == VerifyNonconverged ==> s.local.status == DivergedSourceReady)
      ensures Honest(code)
    {
      if s.mount != Serving {
        return VerifyNoActiveMount;
      }
      Effect(Begin(s));
      ghost var begun := run;
      code := VerifyActive();
      OutcomeOfRest(old(run), begun, run, code);
    }

    /** An attempt that died before it had stopped the destination: make sure it runs, then
        start over. */
    method VerifyAgain() returns (code: VerifyCode)
      requires Valid() && s.pc == VIdle && !s.lease && s.record.Some? && s.record.value.status == VPreparing
      modifies this
      ensures Valid() && old(run) <= run && s.pc == VIdle
      ensures Outcome(old(run), run, code)
      ensures code !in {VerifyNoActiveMount, VerifyTerminal}
      ensures code == VerifyNonconverged ==> s.local.status == DivergedSourceReady
      ensures Honest(code)
    {
      Effect(Begin(s));
      ghost var begun := run;
      var ready := Ensure();
      NoEvents(begun, |old(run)|, run);
      ghost var ensured := run;
      if !ready {
        Effect(Goto(s, VIdle));
        NoEvents(ensured, |old(run)|, run);
        return VerifyRecoveryFailed;
      }
      Effect(SetLocal(s, VerificationRecord(VPreparing, None), VSavePreparing));
      NoEvents(ensured, |old(run)|, run);
      ghost var again := run;
      code := VerifyActive();
      OutcomeOfRest(old(run), again, run, code);
    }

    /** Save, stop, save: then compare. */
    method VerifyActive() returns (code: VerifyCode)
      requires Valid() && s.pc == VSavePreparing && !s.lease
      modifies this
      ensures Valid() && old(run) <= run && s.pc == VIdle
      ensures Outcome(old(run), run, code)
      ensures code !in {VerifyNoActiveMount, VerifyTerminal}
      ensures code == VerifyNonconverged ==> s.local.status == DivergedSourceReady
      ensures Honest(code)
    {
      var saved := TrySave(VStopping(true), VIdle);
      if !saved {
        return VerifyStateFailed;
      }
      ghost var preparing := run;
      code := StopAndVerify();
      EventsStay(run, |preparing| - 1, run, |old(run)|);
    }

    method StopAndVerify() returns (code: VerifyCode)
      requires Valid() && s.pc == VStopping(true) && !s.lease
      modifies this
      ensures Valid() && old(run) <= run && s.pc == VIdle && s.verifications <= old(s.verifications) + 1
      ensures code == VerdictPrinted ==> PrintedDurably(s)
      ensures code != VerdictPrinted ==> s.printed == old(s.printed)
      ensures AtRestart(run, |old(run)| - 1) && (code == VerifyRecoveryFailed || Back(run, |old(run)| - 1))
      ensures code !in {VerifyNoActiveMount, VerifyTerminal}
      ensures code == VerifyNonconverged ==> s.local.status == DivergedSourceReady
      ensures Honest(code)
    {
      var stopped := Stop(true);
      ghost var settled := run;
      if stopped {
        code := VerifyStopped();
      } else {
        code := Recover(VerifyStopFailed);
      }
      EventsStay(run, |settled| - 1, run, |old(run)| - 1);
    }

    method VerifyStopped() returns (code: VerifyCode)
      requires Valid() && s.pc == VSaveStopped && s.lease
      modifies this
      ensures s.verifications <= old(s.verifications) + 1
      ensures Valid() && old(run) <= run && s.pc == VIdle
      ensures code == VerdictPrinted ==> PrintedDurably(s)
      ensures code != VerdictPrinted ==> s.printed == old(s.printed)
      ensures AtRestart(run, |old(run)| - 1) && (code == VerifyRecoveryFailed || Back(run, |old(run)| - 1))
      ensures code !in {VerifyNoActiveMount, VerifyTerminal}
      ensures code == VerifyNonconverged ==> s.local.status == DivergedSourceReady
      ensures Honest(code)
    {
      var saved: bool := *;
      saved := saved || savesWork;
      if saved {
        Effect(SetLocal(Save(s, true, VSaveVerifying, VSaveVerifying), s.local.(status := Verifying), VSaveVerifying));
        ghost var stopped := run;
        code := VerifyAndRecover();
        EventsStay(run, |stopped| - 1, run, |old(run)| - 1);
      } else {
        Effect(Goto(s, VReleaseFailed(false)));
        ghost var unsaved := run;
        code := ReleaseAndRecover(VerifyStateFailed);
        EventsStay(run, |unsaved| - 1, run, |old(run)| - 1);
      }
    }

    /** A verification whose command died with the destination stopped, or so recorded. */
    method ContinueStopped() returns (code: VerifyCode)
      requires Valid() && s.pc == VIdle && !s.lease
      requires s.record.Some? && (s.record.value.status == VStopped || s.record.value.status == Verifying)
      modifies this
      ensures Valid() && old(run) <= run && s.pc == VIdle
      ensures Outcome(old(run), run, code)
      ensures code !in {VerifyNoActiveMount, VerifyTerminal}
      ensures code == VerifyNonconverged ==> s.local.status == DivergedSourceReady
      ensures Honest(code)
    {
      Effect(Begin(s));
      ghost var begun := run;
      AcquireStopped();
      ghost var settled := run;
      if s.pc == VSaveVerifying {
        code := VerifyAndRecover();
      } else if s.pc == VEnsureFailed(false) {
        code := Recover(VerifyRecoveryFailed);
      } else {
        NoEvents(begun, |old(run)|, run);
        return VerifyRecoveryFailed;
      }
      EventsStay(run, |settled| - 1, run, |old(run)|);
    }

    /** Take the lease of the stopped mount, or stop a mount that answers. */
    method AcquireStopped()
      requires Valid() && s.pc == VAcquire && !s.lease
      modifies this
      ensures Valid() && old(run) < run && s.printed == old(s.printed) && s.verifications == old(s.verifications)
      ensures s.pc == VSaveVerifying || s.pc == VEnsureFailed(false) || s.pc == VIdle
      ensures s.lease <==> s.pc == VSaveVerifying
      ensures s.pc == VIdle ==> !Touched(run, |old(run)|)
    {
      var free: bool := *;
      var answers: bool := *;
      var resolved: bool := *;
      if s.mount != Serving && free {
        Effect(SetLocal(Lease(s, true, VSaveVerifying), s.local.(status := Verifying), VSaveVerifying));
      } else if s.mount == Serving && answers && !resolved {
        Effect(Goto(s, VIdle));
      } else if s.mount == Serving && answers {
        Effect(Goto(s, VStopping(false)));
        var _ := Stop(false);
      } else {
        Effect(Goto(s, VEnsureFailed(false)));
      }
    }

    /** The destination is stopped and its lease held: compare once, record, let go, restart. */
    method VerifyAndRecover() returns (code: VerifyCode)
      requires Valid() && s.pc == VSaveVerifying && s.lease
      modifies this
      ensures s.verifications == old(s.verifications) + 1
      ensures Valid() && old(run) <= run && s.pc == VIdle
      ensures code == VerdictPrinted ==> PrintedDurably(s)
      ensures code != VerdictPrinted ==> s.printed == old(s.printed)
      ensures AtRestart(run, |old(run)| - 1) && (code == VerifyRecoveryFailed || Back(run, |old(run)| - 1))
      ensures code !in {VerifyNoActiveMount, VerifyTerminal}
      ensures code == VerifyNonconverged ==> s.local.status == DivergedSourceReady
      ensures Honest(code)
    {
      var _ := TrySave(VCompare, VCompare);
      var converged: bool := *;
      if converged {
        var v: Verdict := *;
        Effect(SetLocal(s, VerificationRecord(Verified, Some(v)), VSaveVerified).(verifications := s.verifications + 1));
        ghost var compared := run;
        code := RecordVerified();
        EventsStay(run, |compared| - 1, run, |old(run)| - 1);
      } else {
        Effect(Goto(s, VReleaseFailed(true)).(verifications := s.verifications + 1));
        ghost var compared := run;
        code := ReleaseAndRecover(VerifyNonconverged);
        EventsStay(run, |compared| - 1, run, |old(run)| - 1);
      }
    }

    method RecordVerified() returns (code: VerifyCode)
      requires Valid() && s.pc == VSaveVerified && s.lease
      modifies this
      ensures s.verifications == old(s.verifications)
      ensures Valid() && old(run) <= run && s.pc == VIdle
      ensures code == VerdictPrinted ==> PrintedDurably(s)
      ensures code != VerdictPrinted ==> s.printed == old(s.printed)
      ensures AtRestart(run, |old(run)| - 1) && (code == VerifyRecoveryFailed || Back(run, |old(run)| - 1))
      ensures code !in {VerifyNoActiveMount, VerifyTerminal}
      ensures code == VerifyNonconverged ==> s.local.status == DivergedSourceReady
      ensures Honest(code)
    {
      var saved := TrySave(VReleaseVerified, VReleaseFailed(false));
      ghost var recorded := run;
      if saved {
        Effect(Lease(s, false, VEnsureVerified));
        ghost var free := run;
        var clean: bool := *;
        code := Conclude(clean);
        EventsStay(run, |free| - 1, run, |old(run)| - 1);
      } else {
        code := ReleaseAndRecover(VerifyStateFailed);
        EventsStay(run, |recorded| - 1, run, |old(run)| - 1);
      }
    }

    /** The lease is let go before the restart, on every path. */
    method ReleaseAndRecover(failure: VerifyCode) returns (code: VerifyCode)
      requires Valid() && s.pc.VReleaseFailed? && s.lease
      requires failure in {VerifyStateFailed, VerifyNonconverged}
      modifies this
      ensures s.verifications == old(s.verifications)
      ensures Valid() && old(run) <= run && s.pc == VIdle && s.printed == old(s.printed)
      ensures AtRestart(run, |old(run)| - 1)
      ensures code == VerifyRecoveryFailed || (code == failure && Back(run, |old(run)| - 1))
      ensures code != VerifyRecoveryFailed ==>
                s.local.status == if old(s.pc.diverged) then DivergedSourceReady else FailedSourceReady
      ensures savesWork ==> s.record == Some(s.local)
    {
      Effect(Lease(s, false, VEnsureFailed(s.pc.diverged)));
      ghost var free := run;
      code := Recover(failure);
      EventsStay(run, |free| - 1, run, |old(run)| - 1);
    }
  }
}
