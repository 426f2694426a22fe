/**
 The per-root lifecycle lock: a lock file created exclusively, reclaimed when its owner is
 gone, and removed on release only if it is still one's own.  The steps are the system calls
 the code makes one by one, for any number of processes that may die anywhere; process ids
 are not reused.
 */
module LifecycleLock {
  import opened Common

  type Pid = nat

  /** The lock file on disk: who created it, and whether the owner has been written yet. */
  datatype File = File(creator: Pid, written: bool)

  datatype Phase =
    | Outside
    | Opened        // created the file, payload not written
    | Holding
    | Reclaiming    // read a payload it takes for a dead owner's; about to remove
    | Releasing     // read its own payload; about to remove
    | Dead

  datatype State = State(lock: Option<File>, phase: map<Pid, Phase>)

  function PhaseOf(s: State, p: Pid): Phase {
    if p in s.phase then s.phase[p] else Outside
  }

  function Moved(s: State, p: Pid, ph: Phase): State {
    s.(phase := s.phase[p := ph])
  }

  datatype Action =
    | Open(p: Pid) | Write(p: Pid) | Inspect(p: Pid) | Remove(p: Pid)
    | Compare(p: Pid) | Unlink(p: Pid) | Die(p: Pid)

  /** What a waiting process reads as abandoned: no file any more, no payload, or a payload
      whose process is gone. */
  predicate LooksAbandoned(s: State) {
    s.lock.None? || !s.lock.value.written || PhaseOf(s, s.lock.value.creator) == Dead
  }

  predicate Enabled(s: State, a: Action) {
    match a
    case Open(p) => PhaseOf(s, p) == Outside && s.lock.None?
    case Write(p) => PhaseOf(s, p) == Opened
    case Inspect(p) => PhaseOf(s, p) == Outside && LooksAbandoned(s)
    case Remove(p) => PhaseOf(s, p) == Reclaiming
    case Compare(p) => PhaseOf(s, p) == Holding
    case Unlink(p) => PhaseOf(s, p) == Releasing
    case Die(p) => PhaseOf(s, p) != Dead
  }

  function After(s: State, a: Action): State {
    match a
    case Open(p) => Moved(s.(lock := Some(File(p, false))), p, Opened)
    case Write(p) =>
      Moved(if s.lock == Some(File(p, false)) then s.(lock := Some(File(p, true))) else s, p, Holding)
    case Inspect(p) => Moved(s, p, Reclaiming)
    case Remove(p) => Moved(s.(lock := None), p, Outside)
    case Compare(p) => Moved(s, p, if s.lock == Some(File(p, true)) then Releasing else Outside)
    case Unlink(p) => Moved(s.(lock := None), p, Outside)
    case Die(p) => Moved(s, p, Dead)
  }

  predicate Init(s: State) {
    s.lock.None? && s.phase == map[]
  }

  /** A process that believes the lock is its own. */
  predicate Owns(s: State, p: Pid) {
    PhaseOf(s, p) in {Opened, Holding, Releasing}
  }

  /** A reclaim that removes nothing a live process relies on. */
  predicate Harmless(s: State, a: Action) {
    a.Remove? && s.lock.Some? ==> !Owns(s, s.lock.value.creator)
  }

  /** The states passed through by a schedule. */
  ghost predicate Run(ss: seq<State>, acts: seq<Action>) {
    && |ss| == |acts| + 1 && Init(ss[0])
    && forall i :: 0 <= i < |acts| ==> Enabled(ss[i], acts[i]) && ss[i + 1] == After(ss[i], acts[i])
  }

  ghost predicate ReclaimsHarmless(ss: seq<State>, acts: seq<Action>)
    requires |ss| == |acts| + 1
  {
    forall i :: 0 <= i < |acts| ==> Harmless(ss[i], acts[i])
  }

  /** Every live process that believes it has the lock is the creator of the file there. */
  ghost predicate Inv(s: State) {
    && (forall p :: Owns(s, p) ==> s.lock.Some? && s.lock.value.creator == p)
    && (forall p :: Owns(s, p) ==> (s.lock.value.written <==> PhaseOf(s, p) != Opened))
  }

  lemma StepInv(s: State, a: Action)
    requires Inv(s) && Enabled(s, a) && Harmless(s, a)
    ensures Inv(After(s, a))
  {
    var s' := After(s, a);
    forall p | Owns(s', p) ensures s'.lock.Some? && s'.lock.value.creator == p && (s'.lock.value.written <==> PhaseOf(s', p) != Opened) {
      if p != a.p { assert Owns(s, p); }
      if a.Write? || a.Compare? || a.Unlink? { assert Owns(s, a.p); }
    }
  }

  lemma {:induction false} RunInv(ss: seq<State>, acts: seq<Action>, i: nat)
    requires Run(ss, acts) && ReclaimsHarmless(ss, acts) && i < |ss|
    ensures Inv(ss[i])
  {
    if i > 0 {
      RunInv(ss, acts, i - 1);
      StepInv(ss[i - 1], acts[i - 1]);
    }
  }

  // ------------------------------------------------------------------ atomic schedules

  /** The schedules in which creating the file with its payload is one step, and so is
      finding a lock abandoned and removing it.  Comparing and removing on release may be
      interleaved with anything. */
  predicate AtomicAt(acts: seq<Action>, i: nat)
    requires i < |acts|
  {
    && (i > 0 && acts[i - 1].Open? ==> acts[i] == Write(acts[i - 1].p))
    && (acts[i].Remove? ==> i > 0 && acts[i - 1] == Inspect(acts[i].p))
  }

  ghost predicate Atomic(acts: seq<Action>) {
    forall i :: 0 <= i < |acts| ==> AtomicAt(acts, i)
  }

  /** Unless the file was created by the very last action, its payload is there; and a
      removal comes right after its inspection, which saw a dead owner or no file. */
  lemma {:induction false} AtomicPrefix(ss: seq<State>, acts: seq<Action>, i: nat)
    requires Run(ss, acts) && Atomic(acts) && i < |ss|
    ensures Inv(ss[i])
    ensures ss[i].lock.Some? && !ss[i].lock.value.written ==> i > 0 && acts[i - 1].Open?
    ensures i < |acts| ==> Harmless(ss[i], acts[i])
  {
    if i > 0 {
      AtomicPrefix(ss, acts, i - 1);
      StepInv(ss[i - 1], acts[i - 1]);
      assert AtomicAt(acts, i - 1);
    }
    if i < |acts| {
      assert AtomicAt(acts, i);
      if acts[i].Remove? { AtomicPrefix(ss, acts, i - 1); }
    }
  }

  lemma AtomicIsHarmless(ss: seq<State>, acts: seq<Action>)
    requires Run(ss, acts) && Atomic(acts)
    ensures ReclaimsHarmless(ss, acts)
  {
    forall i | 0 <= i < |acts| ensures Harmless(ss[i], acts[i]) {
      AtomicPrefix(ss, acts, i);
    }
  }

  /** Mutual exclusion: with creation and reclaim atomic, at most one live process is inside,
      however many others crashed, in every schedule. */
  lemma MutualExclusion(ss: seq<State>, acts: seq<Action>, i: nat, p: Pid, q: Pid)
    requires Run(ss, acts) && Atomic(acts) && i < |ss|
    requires Owns(ss[i], p) && Owns(ss[i], q)
    ensures p == q
  {
    AtomicPrefix(ss, acts, i);
  }

  /** A release takes away nobody else's lock, although comparing and removing are two calls. */
  lemma ReleaseRemovesOwn(ss: seq<State>, acts: seq<Action>, i: nat)
    requires Run(ss, acts) && Atomic(acts) && i < |acts| && acts[i].Unlink?
    ensures ss[i].lock == Some(File(acts[i].p, true))
  {
    AtomicPrefix(ss, acts, i);
    assert Owns(ss[i], acts[i].p);
  }

  /** Whatever the schedule, harmful reclaims included: a release whose comparison came at once
      before it removes its own file and nobody else's. */
  lemma ComparedReleaseIsOwn(ss: seq<State>, acts: seq<Action>, i: nat, p: Pid)
    requires Run(ss, acts) && 0 < i < |acts| && acts[i - 1] == Compare(p) && acts[i] == Unlink(p)
    ensures ss[i].lock == Some(File(p, true))
  {
    assert Enabled(ss[i], acts[i]);
    assert ss[i] == After(ss[i - 1], acts[i - 1]);
  }

  /** The same for any schedule, atomic or not, in which no reclaim hits a live owner. */
  lemma HarmlessMutualExclusion(ss: seq<State>, acts: seq<Action>, i: nat, p: Pid, q: Pid)
    requires Run(ss, acts) && ReclaimsHarmless(ss, acts) && i < |ss|
    requires Owns(ss[i], p) && Owns(ss[i], q)
    ensures p == q
  {
    RunInv(ss, acts, i);
  }

  /** The condition is exact: once a reclaim removes a live owner's file, any process that
      is waiting can walk in beside that owner. */
  lemma HarmfulReclaimLetsASecondIn(s: State, r: Pid, q: Pid)
    requires Enabled(s, Remove(r)) && !Harmless(s, Remove(r))
    requires q != s.lock.value.creator && (PhaseOf(s, q) == Outside || q == r)
    ensures var s1 := After(s, Remove(r));
            && Enabled(s1, Open(q))
            && Owns(After(s1, Open(q)), q) && Owns(After(s1, Open(q)), s.lock.value.creator)
  {
  }

  lemma Extend(ss: seq<State>, acts: seq<Action>, a: Action) returns (ss': seq<State>, acts': seq<Action>)
    requires Run(ss, acts) && Enabled(ss[|acts|], a)
    ensures ss' == ss + [After(ss[|acts|], a)] && acts' == acts + [a] && Run(ss', acts')
  {
    ss', acts' := ss + [After(ss[|acts|], a)], acts + [a];
  }

  lemma TwoFindADeadOwner() returns (ss: seq<State>, acts: seq<Action>)
    ensures Run(ss, acts) && ss[|acts|] == State(Some(File(0, true)), map[0 := Dead, 1 := Reclaiming, 2 := Reclaiming])
    ensures acts == [Open(0), Write(0), Die(0), Inspect(1), Inspect(2)]
  {
    ss, acts := [State(None, map[])], [];
    ss, acts := Extend(ss, acts, Open(0));
    ss, acts := Extend(ss, acts, Write(0));
    ss, acts := Extend(ss, acts, Die(0));
    ss, acts := Extend(ss, acts, Inspect(1));
    ss, acts := Extend(ss, acts, Inspect(2));
  }

  /** Two processes find the same dead owner; one reclaims and enters before the other acts. */
  lemma StaleReclaimIsPending() returns (ss: seq<State>, acts: seq<Action>)
    ensures Run(ss, acts) && ss[|acts|] == State(Some(File(1, true)), map[0 := Dead, 1 := Holding, 2 := Reclaiming])
    ensures acts == [Open(0), Write(0), Die(0), Inspect(1), Inspect(2), Remove(1), Open(1), Write(1)]
  {
    ss, acts := TwoFindADeadOwner();
    ss, acts := Extend(ss, acts, Remove(1));
    ss, acts := Extend(ss, acts, Open(1));
    ss, acts := Extend(ss, acts, Write(1));
  }

  /** Where the two halves of a schedule's atomicity fail. */
  ghost predicate AtomicCreation(acts: seq<Action>) {
    forall i, j :: 0 <= i < j < |acts| && j == i + 1 && acts[i].Open? ==> acts[j] == Write(acts[i].p)
  }

  ghost predicate AtomicReclaim(acts: seq<Action>) {
    forall j :: 0 <= j < |acts| && acts[j].Remove? ==> j > 0 && acts[j - 1] == Inspect(acts[j].p)
  }

  lemma AtomicHalves(acts: seq<Action>)
    ensures Atomic(acts) <==> AtomicCreation(acts) && AtomicReclaim(acts)
  {
    if AtomicCreation(acts) && AtomicReclaim(acts) {
      forall i | 0 <= i < |acts| ensures AtomicAt(acts, i) {
        if i > 0 && acts[i - 1].Open? { assert acts[i] == Write(acts[i - 1].p); }
      }
    }
    if Atomic(acts) {
      forall i, j | 0 <= i < j < |acts| && j == i + 1 && acts[i].Open? ensures acts[j] == Write(acts[i].p) {
        assert AtomicAt(acts, j);
      }
      forall j | 0 <= j < |acts| && acts[j].Remove? ensures j > 0 && acts[j - 1] == Inspect(acts[j].p) {
        assert AtomicAt(acts, j);
      }
    }
  }

  /** Neither half can be dropped.  With the code's separate calls a reclaim that was decided
      before another's takes a live lock away, even if creation is atomic: */
  lemma HarmfulReclaimIsReachable() returns (ss: seq<State>, acts: seq<Action>)
    ensures Run(ss, acts) && AtomicCreation(acts) && !AtomicReclaim(acts)
    ensures Owns(ss[|acts|], 1) && Owns(ss[|acts|], 2)
  {
    ss, acts := StaleReclaimIsPending();
    ss, acts := Extend(ss, acts, Remove(2));
    ss, acts := Extend(ss, acts, Open(2));
    ss, acts := Extend(ss, acts, Write(2));
    assert acts[8] == Remove(2) && acts[7] == Write(1);
  }

  /** And a file whose payload is still to be written is taken for abandoned, even if reclaim
      is atomic. */
  lemma EmptyFileIsReclaimed() returns (ss: seq<State>, acts: seq<Action>)
    ensures Run(ss, acts) && AtomicReclaim(acts) && !AtomicCreation(acts)
    ensures Owns(ss[|acts|], 1) && Owns(ss[|acts|], 2)
  {
    ss, acts := [State(None, map[])], [];
    ss, acts := Extend(ss, acts, Open(1));
    ss, acts := Extend(ss, acts, Inspect(2));
    ss, acts := Extend(ss, acts, Remove(2));
    ss, acts := Extend(ss, acts, Open(2));
    assert acts[0] == Open(1) && acts[1] == Inspect(2);
  }
}
