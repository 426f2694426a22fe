/**
 The flush notification: SIGUSR1 through two one-slot buffers to the mount's worker, which
 reconciles and records a sequence-numbered acknowledgement that notifiers poll.  Any number
 of notifiers and other signallers, every interleaving of the goroutines' effects.
 */
module FlushNotify {

  type Pid = nat

  const DAEMON: Pid := 1

  /** The acknowledgement file, with the times (not in the file) at which the reconcile it
      answers for began and ended and at which it was recorded. */
  datatype Ack = Ack(sequence: nat, pid: Pid, ok: bool, started: nat, finished: nat, recorded: nat)

  datatype Worker =
    | Resting
    | Reconciling(started: nat)
    | Finished(started: nat, finished: nat, ok: bool)                  // about to read the ack
    | Recording(started: nat, finished: nat, ok: bool, previous: nat)  // about to replace it

  /** One notify-flush call.  Two notes are kept for the record: whether the read was clear,
      and whether the signal was safe, in the sense defined below. */
  datatype Notifier =
    | Beginning
    | HasRead(before: nat, readAt: nat, clear: bool)
    | Waiting(before: nat, readAt: nat, clear: bool, signalledAt: nat, safe: bool)
    | Succeeded(seen: Ack, readAt: nat, clear: bool, signalledAt: nat, safe: bool)
    | Failed

  datatype State = State(
    now: nat,                 // one tick per effect
    signal: bool,             // slot filled by the signal handler
    hand: bool,               // the relay goroutine holds a request
    request: bool,            // slot the worker takes from
    worker: Worker,
    ack: Ack,
    lastSignal: nat,          // 0 if none yet
    lastStart: nat,
    notifiers: map<nat, Notifier>)

  function NotifierOf(s: State, n: nat): Notifier {
    if n in s.notifiers then s.notifiers[n] else Beginning
  }

  function Moved(s: State, n: nat, p: Notifier): State {
    s.(notifiers := s.notifiers[n := p])
  }

  function Ticked(s: State): State {
    s.(now := s.now + 1)
  }

  predicate Init(s: State) {
    && s.now == 1 && !s.signal && !s.hand && !s.request && s.worker == Resting
    && s.lastSignal == 0 && s.lastStart == 0 && s.notifiers == map[]
    && s.ack.started == 0 && s.ack.finished == 0 && s.ack.recorded == 0
  }

  /** No successful reconcile has ended that is still to be acknowledged. */
  predicate ReadIsClear(s: State) {
    !((s.worker.Finished? || s.worker.Recording?) && s.worker.ok)
  }

  /** A success that does not answer for a signal sent now: one this notifier has not seen
      yet, or one that the running reconcile can still give. */
  predicate OlderAnswerPossible(s: State, before: nat) {
    || s.worker.Reconciling?
    || ((s.worker.Finished? || s.worker.Recording?) && s.worker.ok)
    || (Answers(s, before) && s.ack.ok)
  }

  /** SIGUSR1 reaches the daemon; a full slot drops it. */
  function Signalled(s: State): State {
    s.(signal := true, lastSignal := s.now)
  }

  /** What a notifier makes of the file it reads: go on waiting, or an answer. */
  predicate Answers(s: State, before: nat) {
    s.ack.sequence > before && s.ack.pid == DAEMON
  }

  /** The relay goroutine: take from the signal slot; put, or drop if the slot is full. */
  ghost predicate RelayStep(s: State, s': State) {
    || (s.signal && !s.hand && s' == s.(signal := false, hand := true))
    || (s.hand && s' == s.(hand := false, request := true))
  }

  ghost predicate WorkerStep(s: State, s': State) {
    match s.worker
    case Resting => s.request && s' == s.(request := false, worker := Reconciling(s.now), lastStart := s.now)
    case Reconciling(st) => exists ok :: s' == s.(worker := Finished(st, s.now, ok))
    case Finished(st, fin, ok) =>
      || s' == s.(worker := Recording(st, fin, ok, s.ack.sequence))
      || s' == s.(worker := Resting)                                   // the ack cannot be read
    case Recording(st, fin, ok, prev) =>
      || s' == s.(worker := Resting, ack := Ack(prev + 1, DAEMON, ok, st, fin, s.now))
      || s' == s.(worker := Resting)                                   // nor written
  }

  ghost predicate NotifierStep(s: State, n: nat, s': State) {
    match NotifierOf(s, n)
    case Beginning => s' == Moved(s, n, HasRead(s.ack.sequence, s.now, ReadIsClear(s)))
    case HasRead(before, readAt, clear) =>
      || s' == Moved(Signalled(s), n, Waiting(before, readAt, clear, s.now, !OlderAnswerPossible(s, before)))
      || s' == Moved(s, n, Failed)
    case Waiting(before, readAt, clear, at, safe) =>
      || (Answers(s, before) && s' == Moved(s, n, if s.ack.ok then Succeeded(s.ack, readAt, clear, at, safe) else Failed))
      || s' == Moved(s, n, Failed)
    case Succeeded(_, _, _, _, _) => false
    case Failed => false
  }

  ghost predicate Effect(s: State, s': State) {
    || RelayStep(s, s')
    || WorkerStep(s, s')
    || (exists n :: NotifierStep(s, n, s'))
    || s' == Signalled(s)
  }

  ghost predicate Next(s: State, s': State) {
    exists m :: Effect(s, m) && s' == Ticked(m)
  }

  ghost predicate Run(ss: seq<State>) {
    && |ss| > 0 && Init(ss[0])
    && forall i :: 0 <= i < |ss| - 1 ==> Next(ss[i], ss[i + 1])
  }

  // -------------------------------------------------------------------- no lost flush

  predicate Pending(s: State) {
    s.signal || s.hand || s.request
  }

  /** Every success this notifier may still see, or already could, ended after a moment. */
  predicate EndsLater(s: State, before: nat, t: nat) {
    && ((s.worker.Finished? || s.worker.Recording?) && s.worker.ok ==> s.worker.finished > t)
    && (s.ack.sequence > before && s.ack.ok ==> s.ack.finished > t)
  }

  /** And began after a moment. */
  predicate BeginsLater(s: State, before: nat, t: nat) {
    && (s.worker.Reconciling? ==> s.worker.started > t)
    && ((s.worker.Finished? || s.worker.Recording?) && s.worker.ok ==> s.worker.started > t)
    && (Answers(s, before) && s.ack.ok ==> s.ack.started > t)
  }

  /** What an accepted signal, an acknowledgement and each notifier may rely on. */
  predicate NotifierOk(s: State, p: Notifier) {
    match p
    case Beginning => true
    case HasRead(before, readAt, clear) =>
      && readAt < s.now && before <= s.ack.sequence && (s.ack.sequence > before ==> s.ack.recorded > readAt)
      && (clear ==> EndsLater(s, before, readAt))
    case Waiting(before, readAt, clear, at, safe) =>
      && readAt < at < s.now && before <= s.ack.sequence && (s.ack.sequence > before ==> s.ack.recorded > readAt)
      && (clear ==> EndsLater(s, before, readAt)) && (safe ==> BeginsLater(s, before, at))
    case Succeeded(a, readAt, clear, at, safe) =>
      && readAt < at && a.ok && a.pid == DAEMON && a.recorded > readAt
      && (clear ==> a.finished > readAt) && (safe ==> a.started > at)
    case Failed => true
  }

  predicate BaseInv(s: State) {
    && s.lastSignal < s.now && s.lastStart < s.now
    && (s.lastSignal == 0 || Pending(s) || s.lastStart > s.lastSignal)
    && s.ack.started <= s.ack.finished <= s.ack.recorded < s.now
    && match s.worker
       case Resting => true
       case Reconciling(st) => st < s.now
       case Finished(st, fin, _) => st < fin < s.now
       case Recording(st, fin, _, prev) => st < fin < s.now && prev == s.ack.sequence
  }

  ghost predicate Inv(s: State) {
    BaseInv(s) && forall n :: NotifierOk(s, NotifierOf(s, n))
  }

  lemma RelayBase(s: State, m: State)
    requires BaseInv(s) && (RelayStep(s, m) || m == Signalled(s))
    ensures BaseInv(Ticked(m))
  {
  }

  lemma WorkerBase(s: State, m: State)
    requires BaseInv(s) && WorkerStep(s, m)
    ensures BaseInv(Ticked(m))
  {
  }

  lemma NotifierBase(s: State, n: nat, m: State)
    requires BaseInv(s) && NotifierStep(s, n, m)
    ensures BaseInv(Ticked(m))
  {
  }

  /** Nothing the relay, the worker or another signaller does hurts a notifier. */
  lemma BystanderOk(s: State, m: State, p: Notifier)
    requires BaseInv(s) && NotifierOk(s, p)
    requires RelayStep(s, m) || WorkerStep(s, m) || m == Signalled(s)
    ensures NotifierOk(Ticked(m), p)
  {
  }

  lemma WaiterStepOk(s: State, n: nat, m: State)
    requires BaseInv(s) && NotifierOk(s, NotifierOf(s, n)) && NotifierStep(s, n, m) && NotifierOf(s, n).Waiting?
    ensures NotifierOk(Ticked(m), NotifierOf(m, n))
  {
  }

  lemma OpeningStepOk(s: State, n: nat, m: State)
    requires BaseInv(s) && NotifierOk(s, NotifierOf(s, n)) && NotifierStep(s, n, m) && !NotifierOf(s, n).Waiting?
    ensures NotifierOk(Ticked(m), NotifierOf(m, n))
  {
  }

  lemma OwnStepOk(s: State, n: nat, m: State)
    requires BaseInv(s) && NotifierOk(s, NotifierOf(s, n)) && NotifierStep(s, n, m)
    ensures NotifierOk(Ticked(m), NotifierOf(m, n))
  {
    if NotifierOf(s, n).Waiting? { WaiterStepOk(s, n, m); } else { OpeningStepOk(s, n, m); }
  }

  lemma OtherNotifierOk(s: State, n: nat, m: State, p: Notifier)
    requires BaseInv(s) && NotifierOk(s, p) && NotifierStep(s, n, m)
    ensures NotifierOk(Ticked(m), p)
  {
  }

  lemma NotifierInv(s: State, n: nat, m: State)
    requires Inv(s) && NotifierStep(s, n, m)
    ensures Inv(Ticked(m))
  {
    NotifierBase(s, n, m);
    assert NotifierOk(s, NotifierOf(s, n));
    OwnStepOk(s, n, m);
    forall k ensures NotifierOk(Ticked(m), NotifierOf(Ticked(m), k)) {
      assert NotifierOk(s, NotifierOf(s, k));
      if k != n {
        assert NotifierOf(Ticked(m), k) == NotifierOf(s, k);
        OtherNotifierOk(s, n, m, NotifierOf(s, k));
      }
    }
  }

  lemma BystanderInv(s: State, m: State)
    requires Inv(s) && (RelayStep(s, m) || WorkerStep(s, m) || m == Signalled(s))
    ensures Inv(Ticked(m))
  {
    if WorkerStep(s, m) { WorkerBase(s, m); } else { RelayBase(s, m); }
    forall k ensures NotifierOk(Ticked(m), NotifierOf(Ticked(m), k)) {
      assert NotifierOf(Ticked(m), k) == NotifierOf(s, k);
      BystanderOk(s, m, NotifierOf(s, k));
    }
  }

  lemma NextInv(s: State, s': State)
    requires Inv(s) && Next(s, s')
    ensures Inv(s')
  {
    var m :| Effect(s, m) && s' == Ticked(m);
    if n :| NotifierStep(s, n, m) { NotifierInv(s, n, m); } else { BystanderInv(s, m); }
  }

  lemma {:induction false} RunInv(ss: seq<State>, i: nat)
    requires Run(ss) && i < |ss|
    ensures Inv(ss[i])
  {
    if i > 0 {
      RunInv(ss, i - 1);
      NextInv(ss[i - 1], ss[i]);
    }
  }

  /** Time only moves on, the last signal with it, and acknowledgements only gain numbers. */
  ghost predicate Later(s: State, s': State) {
    && s.now <= s'.now && s.lastSignal <= s'.lastSignal
    && s.ack.sequence <= s'.ack.sequence && (s'.ack != s.ack ==> s.ack.sequence < s'.ack.sequence)
  }

  lemma WorkerLater(s: State, m: State)
    requires BaseInv(s) && WorkerStep(s, m)
    ensures Later(s, Ticked(m))
  {
  }

  lemma NotifierLater(s: State, n: nat, m: State)
    requires BaseInv(s) && NotifierStep(s, n, m)
    ensures Later(s, Ticked(m))
  {
  }

  lemma NextLater(s: State, s': State)
    requires BaseInv(s) && Next(s, s')
    ensures Later(s, s')
  {
    var m :| Effect(s, m) && s' == Ticked(m);
    if n :| NotifierStep(s, n, m) { NotifierLater(s, n, m); }
    else if WorkerStep(s, m) { WorkerLater(s, m); }
  }

  lemma {:induction false} RunLater(ss: seq<State>, i: nat, j: nat)
    requires Run(ss) && i <= j < |ss|
    ensures Later(ss[i], ss[j])
  {
    if i < j {
      RunLater(ss, i, j - 1);
      RunInv(ss, j - 1);
      NextLater(ss[j - 1], ss[j]);
    }
  }

  /** The daemon was signalled in this step, by a notifier or by anybody else. */
  ghost predicate SignalSent(s: State, s': State) {
    || s' == Ticked(Signalled(s))
    || exists n :: NotifierOf(s, n).HasRead? && NotifierOf(s', n).Waiting?
  }

  /** The worker began a reconcile in this step. */
  predicate FlushBegan(s: State, s': State) {
    s.worker.Resting? && s'.worker.Reconciling?
  }

  lemma SignalIsNoted(s: State, s': State)
    requires Next(s, s') && SignalSent(s, s')
    ensures s'.lastSignal == s.now
  {
    var m :| Effect(s, m) && s' == Ticked(m);
    if s' != Ticked(Signalled(s)) {
      var n :| NotifierOf(s, n).HasRead? && NotifierOf(s', n).Waiting?;
      OwnOrUnmoved(s, m, n);
    }
  }

  lemma StartIsNoted(s: State, s': State)
    requires BaseInv(s) && Next(s, s')
    ensures s'.lastStart != s.lastStart ==> s'.lastStart == s.now && FlushBegan(s, s')
  {
    var m :| Effect(s, m) && s' == Ticked(m);
    if n :| NotifierStep(s, n, m) { NotifierLeavesWorker(s, n, m); }
  }

  lemma NotifierLeavesWorker(s: State, n: nat, m: State)
    requires NotifierStep(s, n, m)
    ensures m.worker == s.worker && m.lastStart == s.lastStart
  {
  }

  /** A start noted after a moment happened after it. */
  lemma {:induction false} StartHappened(ss: seq<State>, i: nat, j: nat)
    requires Run(ss) && i <= j < |ss| && ss[j].lastStart > ss[i].lastStart
    ensures exists k, l :: i <= k < l <= j && l == k + 1 && FlushBegan(ss[k], ss[l])
  {
    RunInv(ss, j - 1);
    StartIsNoted(ss[j - 1], ss[j]);
    if ss[j - 1].lastStart > ss[i].lastStart {
      StartHappened(ss, i, j - 1);
    } else {
      assert FlushBegan(ss[j - 1], ss[j]);
    }
  }

  /** No lost flush: at every moment after a signal there is a token in the signal slot, in the
      relay's hand or in the request slot, or a reconcile has begun since the signal. */
  lemma NoLostFlush(ss: seq<State>, i: nat, j: nat)
    requires Run(ss) && i < j < |ss| && SignalSent(ss[i], ss[i + 1])
    ensures || ss[j].signal || ss[j].hand || ss[j].request
            || exists k, l :: i < k < l <= j && l == k + 1 && FlushBegan(ss[k], ss[l])
  {
    SignalIsNoted(ss[i], ss[i + 1]);
    RunLater(ss, i + 1, j);
    RunInv(ss, i);
    RunInv(ss, j);
    RunInv(ss, i + 1);
    if !Pending(ss[j]) { StartHappened(ss, i + 1, j); }
  }

  /** Acknowledgement numbers strictly increase: a different acknowledgement is a later one. */
  lemma AcksIncrease(ss: seq<State>, i: nat, j: nat)
    requires Run(ss) && i <= j < |ss|
    ensures ss[i].ack.sequence <= ss[j].ack.sequence
    ensures ss[i].ack != ss[j].ack ==> ss[i].ack.sequence < ss[j].ack.sequence
  {
    RunLater(ss, i, j);
  }

  /** A successful notifier saw an acknowledgement recorded after it first read, of a
      reconcile that succeeded.  If its read was clear, that reconcile ended after the read;
      if its signal was safe, it began after the signal. */
  lemma SuccessMeansFlushed(ss: seq<State>, i: nat, n: nat)
    requires Run(ss) && i < |ss| && NotifierOf(ss[i], n).Succeeded?
    ensures var p := NotifierOf(ss[i], n);
            && p.seen.ok && p.seen.pid == DAEMON && p.seen.recorded > p.readAt && p.signalledAt > p.readAt
            && (p.clear ==> p.seen.finished > p.readAt)
            && (p.safe ==> p.seen.started > p.signalledAt)
  {
    RunInv(ss, i);
    assert NotifierOk(ss[i], NotifierOf(ss[i], n));
  }

  // ------------------------------------------------------------ how exact that is

  ghost predicate Continues(ss: seq<State>, s: State, s': State) {
    && |ss| > 0 && ss[0] == s && ss[|ss| - 1] == s'
    && forall i :: 0 <= i < |ss| - 1 ==> Next(ss[i], ss[i + 1])
  }

  lemma Append(ss: seq<State>, s: State, t: State, m: State) returns (ss': seq<State>)
    requires Continues(ss, s, t) && Effect(t, m)
    ensures Continues(ss', s, Ticked(m))
  {
    assert Next(t, Ticked(m));
    ss' := ss + [Ticked(m)];
  }

  /** A worker that is busy can finish well and acknowledge. */
  lemma WorkerCanAcknowledge(s: State) returns (ss: seq<State>, t: State)
    requires BaseInv(s) && (s.worker.Reconciling? || (!s.worker.Resting? && s.worker.ok))
    ensures Continues(ss, s, t) && t.notifiers == s.notifiers && t.lastSignal == s.lastSignal
    ensures t.ack.sequence == s.ack.sequence + 1 && t.ack.pid == DAEMON && t.ack.ok && t.ack.started == s.worker.started
    ensures !s.worker.Reconciling? ==> t.ack.finished == s.worker.finished
  {
    ss, t := [s], s;
    if t.worker.Reconciling? {
      var m := t.(worker := Finished(t.worker.started, t.now, true));
      ss := Append(ss, s, t, m);
      t := Ticked(m);
    }
    if t.worker.Finished? {
      var m := t.(worker := Recording(t.worker.started, t.worker.finished, t.worker.ok, t.ack.sequence));
      ss := Append(ss, s, t, m);
      t := Ticked(m);
    }
    var m := t.(worker := Resting, ack := Ack(t.worker.previous + 1, DAEMON, t.worker.ok, t.worker.started, t.worker.finished, t.now));
    ss := Append(ss, s, t, m);
    t := Ticked(m);
  }

  lemma Prepend(s: State, m: State, ss: seq<State>, t: State) returns (ss': seq<State>)
    requires Effect(s, m) && Continues(ss, Ticked(m), t)
    ensures Continues(ss', s, t)
  {
    assert Next(s, Ticked(m));
    ss' := [s] + ss;
  }

  /** A waiting notifier takes the success that is there, or that the worker can still give. */
  lemma WaiterCanSucceed(s: State, n: nat) returns (ss: seq<State>, t: State)
    requires Inv(s) && NotifierOf(s, n).Waiting?
    requires OlderAnswerPossible(s, NotifierOf(s, n).before)
    ensures Continues(ss, s, t) && NotifierOf(t, n).Succeeded?
    ensures var p, q := NotifierOf(s, n), NotifierOf(t, n);
            && q.readAt == p.readAt && q.signalledAt == p.signalledAt
            && (s.worker.Resting? || (!s.worker.Reconciling? && !s.worker.ok) ==> q.seen == s.ack)
            && (s.worker.Reconciling? || (!s.worker.Resting? && s.worker.ok) ==> q.seen.started == s.worker.started)
            && ((s.worker.Finished? || s.worker.Recording?) && s.worker.ok ==> q.seen.finished == s.worker.finished)
  {
    var p := NotifierOf(s, n);
    assert NotifierOk(s, p);
    var acked := s;
    ss := [s];
    if s.worker.Reconciling? || (!s.worker.Resting? && s.worker.ok) {
      ss, acked := WorkerCanAcknowledge(s);
    }
    assert NotifierOf(acked, n) == p;
    var m := Moved(acked, n, Succeeded(acked.ack, p.readAt, p.clear, p.signalledAt, p.safe));
    assert NotifierStep(acked, n, m);
    ss := Append(ss, s, acked, m);
    t := Ticked(m);
  }

  /** This notifier signals now and is told of success by a reconcile begun before. */
  ghost predicate SignalFooled(s: State, n: nat) {
    exists ss, t :: Continues(ss, s, t) && FooledBySignal(s.now, t, n)
  }

  predicate FooledBySignal(at: nat, t: State, n: nat) {
    var p := NotifierOf(t, n);
    p.Succeeded? && p.signalledAt == at && p.seen.started < at
  }

  /** This notifier reads now and is told of success by a reconcile that ended before. */
  ghost predicate ReadFooled(s: State, n: nat) {
    exists ss, t :: Continues(ss, s, t) && FooledByRead(s.now, t, n)
  }

  predicate FooledByRead(at: nat, t: State, n: nat) {
    var p := NotifierOf(t, n);
    p.Succeeded? && p.readAt == at && p.seen.finished < at
  }

  lemma UnsafeSignalIsFooled(s: State, n: nat)
    requires Inv(s) && NotifierOf(s, n).HasRead? && OlderAnswerPossible(s, NotifierOf(s, n).before)
    ensures SignalFooled(s, n)
  {
    var p := NotifierOf(s, n);
    assert NotifierOk(s, p);
    var m := Moved(Signalled(s), n, Waiting(p.before, p.readAt, p.clear, s.now, false));
    assert NotifierStep(s, n, m);
    NextInv(s, Ticked(m)) by { assert Next(s, Ticked(m)); }
    var ss, t := WaiterCanSucceed(Ticked(m), n);
    ss := Prepend(s, m, ss, t);
    assert FooledBySignal(s.now, t, n);
  }

  lemma UnclearReadIsFooled(s: State, n: nat)
    requires Inv(s) && NotifierOf(s, n).Beginning? && !ReadIsClear(s)
    ensures ReadFooled(s, n)
  {
    var m1 := Moved(s, n, HasRead(s.ack.sequence, s.now, false));
    assert NotifierStep(s, n, m1);
    var s1 := Ticked(m1);
    NextInv(s, s1) by { assert Next(s, s1); }
    var m2 := Moved(Signalled(s1), n, Waiting(s.ack.sequence, s.now, false, s1.now, false));
    assert NotifierStep(s1, n, m2);
    NextInv(s1, Ticked(m2)) by { assert Next(s1, Ticked(m2)); }
    var ss, t := WaiterCanSucceed(Ticked(m2), n);
    ss := Prepend(s1, m2, ss, t);
    ss := Prepend(s, m1, ss, t);
    assert FooledByRead(s.now, t, n);
  }

  /** What is noted at the moment of the read, or of the signal, stays noted. */
  predicate ReadNoted(at: nat, clear: bool, p: Notifier, u: State) {
    match p
    case Beginning => u.now >= at && (u.now == at ==> clear == ReadIsClear(u))
    case HasRead(_, readAt, c) => readAt == at ==> c == clear
    case Waiting(_, readAt, c, _, _) => readAt == at ==> c == clear
    case Succeeded(_, readAt, c, _, _) => readAt == at ==> c == clear
    case Failed => true
  }

  predicate SignalNoted(at: nat, safe: bool, p: Notifier, u: State) {
    match p
    case Beginning => u.now > at
    case HasRead(before, _, _) => u.now >= at && (u.now == at ==> safe == !OlderAnswerPossible(u, before))
    case Waiting(_, _, _, signalledAt, v) => signalledAt == at ==> v == safe
    case Succeeded(_, _, _, signalledAt, v) => signalledAt == at ==> v == safe
    case Failed => true
  }

  /** The notifier takes a step of its own, or stays as it is while the others move. */
  lemma OwnOrUnmoved(u: State, m: State, n: nat)
    requires Effect(u, m)
    ensures m.now == u.now && (NotifierStep(u, n, m) || NotifierOf(m, n) == NotifierOf(u, n))
  {
    if k :| NotifierStep(u, k, m) { NotifierFrame(u, k, m, n); }
    else if WorkerStep(u, m) { WorkerFrame(u, m, n); }
  }

  lemma NotifierFrame(u: State, k: nat, m: State, n: nat)
    requires NotifierStep(u, k, m)
    ensures m.now == u.now && (k != n ==> NotifierOf(m, n) == NotifierOf(u, n))
  {
  }

  lemma WorkerFrame(u: State, m: State, n: nat)
    requires WorkerStep(u, m)
    ensures m.now == u.now && NotifierOf(m, n) == NotifierOf(u, n)
  {
  }

  lemma ReadNoteStays(u: State, m: State, n: nat, at: nat, note: bool)
    requires m.now == u.now && (NotifierStep(u, n, m) || NotifierOf(m, n) == NotifierOf(u, n))
    requires ReadNoted(at, note, NotifierOf(u, n), u)
    ensures ReadNoted(at, note, NotifierOf(m, n), Ticked(m))
  {
  }

  lemma SignalNoteStays(u: State, m: State, n: nat, at: nat, note: bool)
    requires m.now == u.now && (NotifierStep(u, n, m) || NotifierOf(m, n) == NotifierOf(u, n))
    requires SignalNoted(at, note, NotifierOf(u, n), u)
    ensures SignalNoted(at, note, NotifierOf(m, n), Ticked(m))
  {
  }

  lemma NotesStay(u: State, u': State, n: nat, at: nat, note: bool)
    requires Next(u, u')
    ensures ReadNoted(at, note, NotifierOf(u, n), u) ==> ReadNoted(at, note, NotifierOf(u', n), u')
    ensures SignalNoted(at, note, NotifierOf(u, n), u) ==> SignalNoted(at, note, NotifierOf(u', n), u')
  {
    var m :| Effect(u, m) && u' == Ticked(m);
    OwnOrUnmoved(u, m, n);
    if ReadNoted(at, note, NotifierOf(u, n), u) { ReadNoteStays(u, m, n, at, note); }
    if SignalNoted(at, note, NotifierOf(u, n), u) { SignalNoteStays(u, m, n, at, note); }
  }

  lemma {:induction false} NotedAlong(ss: seq<State>, s: State, t: State, n: nat, note: bool, i: nat)
    requires Continues(ss, s, t) && Inv(s) && i < |ss|
    ensures Inv(ss[i])
    ensures ReadNoted(s.now, note, NotifierOf(s, n), s) ==> ReadNoted(s.now, note, NotifierOf(ss[i], n), ss[i])
    ensures SignalNoted(s.now, note, NotifierOf(s, n), s) ==> SignalNoted(s.now, note, NotifierOf(ss[i], n), ss[i])
  {
    if i > 0 {
      NotedAlong(ss, s, t, n, note, i - 1);
      NextInv(ss[i - 1], ss[i]);
      NotesStay(ss[i - 1], ss[i], n, s.now, note);
    }
  }

  /** Exactly when a notifier that signals now can be answered by an older reconcile. */
  lemma SignalFooledIff(s: State, n: nat)
    requires Inv(s) && NotifierOf(s, n).HasRead?
    ensures SignalFooled(s, n) <==> OlderAnswerPossible(s, NotifierOf(s, n).before)
  {
    if OlderAnswerPossible(s, NotifierOf(s, n).before) {
      UnsafeSignalIsFooled(s, n);
    } else {
      forall ss, t | Continues(ss, s, t) ensures !FooledBySignal(s.now, t, n) {
        NotedAlong(ss, s, t, n, true, |ss| - 1);
        assert NotifierOk(t, NotifierOf(t, n));
      }
    }
  }

  /** Exactly when a notifier that reads now can be answered by a reconcile that has ended. */
  lemma ReadFooledIff(s: State, n: nat)
    requires Inv(s) && NotifierOf(s, n).Beginning?
    ensures ReadFooled(s, n) <==> !ReadIsClear(s)
  {
    if !ReadIsClear(s) {
      UnclearReadIsFooled(s, n);
    } else {
      forall ss, t | Continues(ss, s, t) ensures !FooledByRead(s.now, t, n) {
        NotedAlong(ss, s, t, n, true, |ss| - 1);
        assert NotifierOk(t, NotifierOf(t, n));
      }
    }
  }
}
