/**
 The shared cloud session: several processes read one session file, and whoever finds the
 session about to expire rolls its single-use refresh token under a lock directory and
 writes the new pair back.  Any number of processes, a clock, and a token server.
 */
module CloudSession {
  import opened Common

  type Pid = nat

  const ACCESS_WINDOW := 300        // seconds before expiry at which an access token is rolled
  const REFRESH_WINDOW := 86400     // the same for the refresh token
  const STALE_AFTER := 30           // age at which a lock directory is reclaimed

  /** A complete stored session; `token` numbers the refresh tokens in the order issued. */
  datatype Session = Session(token: nat, accessExpires: int, refreshExpires: Expiry)

  /** When the refresh token expires: not said, said but not a time, or a time. */
  datatype Expiry = Unstated | Unreadable | At(time: int)

  predicate NeedsRefresh(s: Session, now: int) {
    || s.accessExpires - now <= ACCESS_WINDOW
    || s.refreshExpires.Unreadable?
    || (s.refreshExpires.At? && s.refreshExpires.time - now <= REFRESH_WINDOW)
  }

  /** Where a call of ensureAgentRelayCloudSession stands. */
  datatype Phase =
    | Start
    | Waiting(seen: Session)                  // found it expiring; wants the lock
    | Reclaiming(seen: Session)               // found the lock stale; about to remove it
    | Locked(seen: Session)                   // has the lock; has not looked again
    | Calling(auth: Session)                  // about to present auth's refresh token
    | Writing(pair: Session)                  // the server rotated; the pair is in hand
    | Unlocking(result: Option<Session>)
    | Done(result: Option<Session>, waited: bool)
    | Crashed

  datatype Lock = Lock(owner: Pid, since: int)

  datatype State = State(
    now: int,
    file: Option<Session>,
    lock: Option<Lock>,
    issued: seq<Session>,         // every pair the server ever issued; the last is current
    rejected: nat,                // refreshes the server turned down as already rotated
    procs: map<Pid, Phase>)

  function PhaseOf(s: State, p: Pid): Phase {
    if p in s.procs then s.procs[p] else Start
  }

  function Moved(s: State, p: Pid, ph: Phase): State {
    s.(procs := s.procs[p := ph])
  }

  predicate InSection(ph: Phase) {
    ph.Locked? || ph.Calling? || ph.Writing? || ph.Unlocking?
  }

  function Newest(s: State): nat
    requires s.issued != []
  {
    |s.issued| - 1
  }

  predicate Init(s: State) {
    && |s.issued| == 1 && s.issued[0].token == 0 && s.file == Some(s.issued[0])
    && s.lock.None? && s.rejected == 0 && s.procs == map[]
  }

  // ------------------------------------------------------------------------- steps

  /** The first, unlocked look at the file. */
  function Look(s: State, p: Pid): State {
    if s.file.None? then Moved(s, p, Done(None, false))
    else if NeedsRefresh(s.file.value, s.now) then Moved(s, p, Waiting(s.file.value))
    else Moved(s, p, Done(s.file, false))
  }

  function Take(s: State, p: Pid, seen: Session): State {
    Moved(s.(lock := Some(Lock(p, s.now))), p, Locked(seen))
  }

  predicate Reclaimable(s: State) {
    s.lock.Some? && s.now - s.lock.value.since >= STALE_AFTER
  }

  /** The second look, with the lock held: adopt whatever is on disk now. */
  function LookAgain(s: State, p: Pid, seen: Session): State {
    if s.file.Some? && !NeedsRefresh(s.file.value, s.now) then Moved(s, p, Unlocking(s.file))
    else Moved(s, p, Calling(if s.file.Some? then s.file.value else seen))
  }

  /** The server rotates the current token once, and rejects every other. */
  function Refresh(s: State, p: Pid, auth: Session, answer: Session): State
    requires s.issued != []
  {
    if auth.token == Newest(s) then
      var pair := answer.(token := |s.issued|);
      Moved(s.(issued := s.issued + [pair]), p, Writing(pair))
    else Moved(s.(rejected := s.rejected + 1), p, Unlocking(None))
  }

  function WriteBack(s: State, p: Pid, pair: Session): State {
    Moved(s.(file := Some(pair)), p, Unlocking(Some(pair)))
  }

  /** Release removes the lock directory, whoever made it. */
  function Unlock(s: State, p: Pid, result: Option<Session>): State {
    Moved(s.(lock := None), p, Done(result, true))
  }

  /** One step of process p's call. */
  ghost predicate Step(s: State, p: Pid, s': State) {
    && s.issued != []
    && match PhaseOf(s, p)
       case Start => s' == Look(s, p)
       case Waiting(seen) =>
         || (s.lock.None? && s' == Take(s, p, seen))
         || (Reclaimable(s) && s' == Moved(s, p, Reclaiming(seen)))
         || s' == Moved(s, p, Done(None, true))
       case Reclaiming(seen) => s' == Moved(s.(lock := None), p, Waiting(seen))
       case Locked(seen) => s' == LookAgain(s, p, seen)
       case Calling(auth) =>
         || (exists answer :: s' == Refresh(s, p, auth, answer))
         || s' == Moved(s, p, Unlocking(None))
       case Writing(pair) => s' == WriteBack(s, p, pair)
       case Unlocking(result) => s' == Unlock(s, p, result)
       case Done(_, _) => false
       case Crashed => false
  }

  predicate CanCrash(ph: Phase) {
    !ph.Done? && !ph.Crashed?
  }

  /** Time passes, but not so far that a live holder's lock grows stale. */
  ghost predicate Tick(s: State, s': State) {
    && s' == s.(now := s'.now) && s'.now >= s.now
    && forall p :: p in s.procs && InSection(s.procs[p]) && s.lock.Some? ==> s'.now - s.lock.value.since < STALE_AFTER
  }

  ghost predicate Next(s: State, s': State) {
    || (exists p :: Step(s, p, s'))
    || (exists p :: CanCrash(PhaseOf(s, p)) && s' == Moved(s, p, Crashed))
    || Tick(s, s')
  }

  /** Any process may die anywhere. */
  ghost predicate Run(ss: seq<State>) {
    && |ss| > 0 && Init(ss[0])
    && forall i, j :: 0 <= i < j < |ss| && j == i + 1 ==> Next(ss[i], ss[j])
  }

  /** Nobody dies between taking the lock and letting it go. */
  ghost predicate NoneDiesInside(s: State, s': State) {
    forall p :: InSection(PhaseOf(s, p)) ==> !PhaseOf(s', p).Crashed?
  }

  ghost predicate Sound(ss: seq<State>) {
    forall i, j :: 0 <= i < j < |ss| && j == i + 1 ==> NoneDiesInside(ss[i], ss[j])
  }

  // ---------------------------------------------------------- what holds of every run

  predicate SessionOk(s: State, ph: Phase) {
    match ph
    case Waiting(seen) => seen in s.issued
    case Reclaiming(seen) => seen in s.issued
    case Locked(seen) => seen in s.issued
    case Calling(auth) => auth in s.issued
    case Writing(pair) => pair in s.issued
    case Unlocking(Some(r)) => r in s.issued
    case Done(Some(r), _) => r in s.issued
    case _ => true
  }

  /** Nothing but what the server issued is ever on disk or in hand. */
  ghost predicate BaseInv(s: State) {
    && s.issued != []
    && (forall k :: 0 <= k < |s.issued| ==> s.issued[k].token == k)
    && s.file.Some? && s.file.value in s.issued
    && (forall p :: SessionOk(s, PhaseOf(s, p)))
  }

  lemma StepBase(s: State, p: Pid, s': State)
    requires BaseInv(s) && Step(s, p, s')
    ensures BaseInv(s')
  {
    OnlyOneMoves(s, p, s');
    assert SessionOk(s, PhaseOf(s, p));
    forall q ensures SessionOk(s', PhaseOf(s', q)) {
      assert SessionOk(s, PhaseOf(s, q));
    }
  }

  lemma NextBase(s: State, s': State)
    requires BaseInv(s) && Next(s, s')
    ensures BaseInv(s')
  {
    if p :| Step(s, p, s') {
      StepBase(s, p, s');
    } else if p :| CanCrash(PhaseOf(s, p)) && s' == Moved(s, p, Crashed) {
      OnlyOneMoves(s, p, s');
      forall q ensures SessionOk(s', PhaseOf(s', q)) { assert SessionOk(s, PhaseOf(s, q)); }
    } else {
      forall q ensures SessionOk(s', PhaseOf(s', q)) { assert SessionOk(s, PhaseOf(s, q)); }
    }
  }

  lemma {:induction false} RunBase(ss: seq<State>, i: nat)
    requires Run(ss) && i < |ss|
    ensures BaseInv(ss[i])
  {
    if i > 0 {
      RunBase(ss, i - 1);
      NextBase(ss[i - 1], ss[i]);
    }
  }

  // ------------------------------------------------------- what holds of sound runs

  ghost predicate PhaseOk(s: State, p: Pid)
    requires s.issued != []
  {
    match PhaseOf(s, p)
    case Waiting(seen) => NeedsRefresh(seen, s.now)
    case Reclaiming(_) => false
    case Locked(seen) => NeedsRefresh(seen, s.now)
    case Calling(auth) => s.file == Some(auth) && NeedsRefresh(auth, s.now)
    case Writing(pair) => pair == s.issued[Newest(s)] && s.file != Some(pair)
    case _ => true
  }

  ghost predicate Inv(s: State) {
    && BaseInv(s) && s.rejected == 0
    && (forall p :: InSection(PhaseOf(s, p)) ==> s.lock.Some? && s.lock.value.owner == p)
    && (s.lock.Some? ==> InSection(PhaseOf(s, s.lock.value.owner)) && s.now - s.lock.value.since < STALE_AFTER)
    && (forall p :: PhaseOk(s, p))
    && ((forall p :: !PhaseOf(s, p).Writing?) ==> s.file == Some(s.issued[Newest(s)]))
  }

  /** Only p moves; what held of every other process still does. */
  lemma OnlyOneMoves(s: State, p: Pid, s': State)
    requires s'.procs == s.procs || (p in s'.procs && s'.procs == s.procs[p := s'.procs[p]])
    ensures forall q :: q != p ==> PhaseOf(s', q) == PhaseOf(s, q)
  {
  }

  lemma StepSection(s: State, p: Pid, s': State)
    requires Inv(s) && Step(s, p, s')
    ensures forall q :: InSection(PhaseOf(s', q)) ==> s'.lock.Some? && s'.lock.value.owner == q
    ensures s'.lock.Some? ==> InSection(PhaseOf(s', s'.lock.value.owner)) && s'.now - s'.lock.value.since < STALE_AFTER
  {
    OnlyOneMoves(s, p, s');
    assert PhaseOk(s, p);
    assert InSection(PhaseOf(s, p)) ==> s.lock.Some? && s.lock.value.owner == p;
    forall q ensures InSection(PhaseOf(s', q)) ==> s'.lock.Some? && s'.lock.value.owner == q {
      assert q != p && InSection(PhaseOf(s, q)) ==> s.lock.Some? && s.lock.value.owner == q;
    }
  }

  lemma StepPhases(s: State, p: Pid, s': State)
    requires Inv(s) && Step(s, p, s')
    ensures forall q :: PhaseOk(s', q)
  {
    OnlyOneMoves(s, p, s');
    assert PhaseOk(s, p);
    forall q ensures PhaseOk(s', q) {
      assert PhaseOk(s, q);
    }
  }

  lemma StepInv(s: State, p: Pid, s': State)
    requires Inv(s) && Step(s, p, s')
    ensures Inv(s')
  {
    StepBase(s, p, s');
    StepSection(s, p, s');
    StepPhases(s, p, s');
    FileIsNewest(s, p, s');
  }

  /** The file is behind the server only while somebody is about to write. */
  lemma FileIsNewest(s: State, p: Pid, s': State)
    requires Inv(s) && Step(s, p, s')
    ensures s'.rejected == 0 && s'.issued != []
    ensures (forall q :: !PhaseOf(s', q).Writing?) ==> s'.file == Some(s'.issued[Newest(s')])
  {
    OnlyOneMoves(s, p, s');
    assert PhaseOk(s, p);
    if forall q :: !PhaseOf(s', q).Writing? {
      if !PhaseOf(s, p).Writing? {
        forall q ensures !PhaseOf(s, q).Writing? { assert !PhaseOf(s', q).Writing?; }
      }
      assert !PhaseOf(s', p).Writing?;
    }
    if PhaseOf(s, p).Calling? {
      forall q ensures !PhaseOf(s, q).Writing? { assert InSection(PhaseOf(s, q)) && InSection(PhaseOf(s, p)) ==> q == p; }
    }
  }

  lemma CrashInv(s: State, p: Pid)
    requires Inv(s) && CanCrash(PhaseOf(s, p)) && !InSection(PhaseOf(s, p))
    ensures Inv(Moved(s, p, Crashed))
  {
    var s' := Moved(s, p, Crashed);
    OnlyOneMoves(s, p, s');
    NextBase(s, s') by { assert Next(s, s'); }
    forall q ensures (InSection(PhaseOf(s', q)) ==> s'.lock.Some? && s'.lock.value.owner == q) && PhaseOk(s', q) {
      assert PhaseOk(s, q);
      assert q != p && InSection(PhaseOf(s, q)) ==> s.lock.Some? && s.lock.value.owner == q;
    }
    if forall q :: !PhaseOf(s', q).Writing? {
      forall q ensures !PhaseOf(s, q).Writing? { assert !PhaseOf(s', q).Writing?; }
    }
  }

  lemma TickInv(s: State, s': State)
    requires Inv(s) && Tick(s, s')
    ensures Inv(s')
  {
    NextBase(s, s') by { assert Next(s, s'); }
    forall q ensures PhaseOf(s', q) == PhaseOf(s, q) && PhaseOk(s', q)
                     && (InSection(PhaseOf(s', q)) ==> s'.lock.Some? && s'.lock.value.owner == q)
    {
      assert PhaseOk(s, q);
      assert InSection(PhaseOf(s, q)) ==> s.lock.Some? && s.lock.value.owner == q;
    }
    if forall q :: !PhaseOf(s', q).Writing? {
      forall q ensures !PhaseOf(s, q).Writing? { assert !PhaseOf(s', q).Writing?; }
    }
  }

  lemma NextInv(s: State, s': State)
    requires Inv(s) && Next(s, s') && NoneDiesInside(s, s')
    ensures Inv(s')
  {
    if p :| Step(s, p, s') { StepInv(s, p, s'); }
    else if p :| CanCrash(PhaseOf(s, p)) && s' == Moved(s, p, Crashed) {
      assert PhaseOf(s', p) == Crashed;
      CrashInv(s, p);
    }
    else { TickInv(s, s'); }
  }

  lemma InitInv(s: State)
    requires Init(s)
    ensures Inv(s)
  {
    forall p ensures PhaseOf(s, p) == Start { }
  }

  lemma {:induction false} RunInv(ss: seq<State>, i: nat)
    requires Run(ss) && Sound(ss) && i < |ss|
    ensures Inv(ss[i])
  {
    if i == 0 {
      InitInv(ss[0]);
    } else {
      RunInv(ss, i - 1);
      NextInv(ss[i - 1], ss[i]);
    }
  }

  // ----------------------------------------------------------------------- theorems

  /** Nobody ever presents a refresh token that was already rotated. */
  lemma OnlyCurrentTokensPresented(ss: seq<State>, i: nat, p: Pid)
    requires Run(ss) && Sound(ss) && i < |ss|
    ensures ss[i].rejected == 0 && ss[i].issued != []
    ensures PhaseOf(ss[i], p).Calling? ==> PhaseOf(ss[i], p).auth == ss[i].issued[|ss[i].issued| - 1]
  {
    RunInv(ss, i);
    var s := ss[i];
    if PhaseOf(s, p).Calling? {
      assert PhaseOk(s, p) && InSection(PhaseOf(s, p));
      forall q ensures !PhaseOf(s, q).Writing? { assert InSection(PhaseOf(s, q)) ==> s.lock.value.owner == q; }
    }
  }

  /** A refresh token is presented only for a session whose access token has five minutes left
      or less, or whose refresh token has a day left or less or an unreadable expiry. */
  lemma RollsOnlyWhenDue(ss: seq<State>, i: nat, p: Pid)
    requires Run(ss) && Sound(ss) && i < |ss| && PhaseOf(ss[i], p).Calling?
    ensures var auth := PhaseOf(ss[i], p).auth;
            || auth.accessExpires <= ss[i].now + 300
            || auth.refreshExpires.Unreadable?
            || (auth.refreshExpires.At? && auth.refreshExpires.time <= ss[i].now + 86400)
  {
    RunInv(ss, i);
    assert PhaseOk(ss[i], p);
  }

  /** A waiting process sets out to remove a lock exactly when it is thirty seconds old. */
  lemma ReclaimsIffStale(s: State, p: Pid)
    requires s.issued != [] && PhaseOf(s, p).Waiting?
    ensures (exists s' :: Step(s, p, s') && PhaseOf(s', p).Reclaiming?) <==> s.lock.Some? && s.now - s.lock.value.since >= 30
  {
    if s.lock.Some? && s.now - s.lock.value.since >= 30 {
      var s' := Moved(s, p, Reclaiming(PhaseOf(s, p).seen));
      assert Step(s, p, s') && PhaseOf(s', p).Reclaiming?;
    }
  }

  /** At most one process is between taking and releasing the lock. */
  lemma OneInSection(ss: seq<State>, i: nat, p: Pid, q: Pid)
    requires Run(ss) && Sound(ss) && i < |ss| && InSection(PhaseOf(ss[i], p)) && InSection(PhaseOf(ss[i], q))
    ensures p == q
  {
    RunInv(ss, i);
  }

  /** Whenever nobody is about to write, the file holds the server's newest pair. */
  lemma FileEndsNewest(ss: seq<State>, i: nat)
    requires Run(ss) && Sound(ss) && i < |ss| && (forall p :: !PhaseOf(ss[i], p).Writing?)
    ensures ss[i].issued != [] && ss[i].file == Some(ss[i].issued[|ss[i].issued| - 1])
  {
    RunInv(ss, i);
  }

  // --------------------------------------------------------- dying inside is never safe

  /** A finite execution from one state to another in which nobody dies inside. */
  ghost predicate Continues(ss: seq<State>, s: State, t: State) {
    && |ss| > 0 && ss[0] == s && ss[|ss| - 1] == t && Sound(ss)
    && forall i, j :: 0 <= i < j < |ss| && j == i + 1 ==> Next(ss[i], ss[j])
  }

  lemma By(ss: seq<State>, s: State, t: State, p: Pid, u: State) returns (ss': seq<State>)
    requires Continues(ss, s, t) && Step(t, p, u)
    ensures Continues(ss', s, u)
  {
    ss' := ss + [u];
    OnlyOneMoves(t, p, u);
    assert Next(t, u) && NoneDiesInside(t, u);
  }

  lemma Chained(ss: seq<State>, s: State, t: State, tt: seq<State>, u: State) returns (all: seq<State>)
    requires Continues(ss, s, t) && Continues(tt, t, u)
    ensures Continues(all, s, u)
  {
    all := ss + tt[1..];
    forall i, j | 0 <= i < j < |all| && j == i + 1 ensures Next(all[i], all[j]) && NoneDiesInside(all[i], all[j]) {
      if j < |ss| {
        assert all[i] == ss[i] && all[j] == ss[j];
      } else {
        var k := j - |ss| + 1;
        assert all[i] == tt[k - 1] && all[j] == tt[k];
      }
    }
    assert all[|all| - 1] == u;
  }

  /** After a death inside nobody is left inside, so the clock can pass the stale limit and
      the session's expiry, and two newcomers find both the session and the lock expired. */
  lemma TwoFindItStale(s: State, p: Pid, q: Pid, r: Pid) returns (ss: seq<State>, t: State)
    requires Inv(s) && InSection(PhaseOf(s, p)) && q != r && p != q && p != r
    requires PhaseOf(s, q) == Start && PhaseOf(s, r) == Start
    ensures Continues(ss, Moved(s, p, Crashed), t)
    ensures t.file == s.file && t.issued == s.issued && t.rejected == s.rejected && NeedsRefresh(s.file.value, t.now)
    ensures PhaseOf(t, q) == Reclaiming(s.file.value) && PhaseOf(t, r) == Reclaiming(s.file.value)
  {
    var s0 := Moved(s, p, Crashed);
    OnlyOneMoves(s, p, s0);
    forall x ensures !InSection(PhaseOf(s0, x)) {
      assert InSection(PhaseOf(s, x)) ==> s.lock.Some? && s.lock.value.owner == x;
    }
    assert s.lock.Some?;
    var late := s.lock.value.since + STALE_AFTER;
    var now := if s.now > late then s.now else late;
    var s1 := s0.(now := if now > s.file.value.accessExpires then now else s.file.value.accessExpires);
    forall x | x in s0.procs ensures !InSection(s0.procs[x]) { assert s0.procs[x] == PhaseOf(s0, x); }
    assert Tick(s0, s1);
    ss := [s0, s1];
    assert NoneDiesInside(s0, s1);
    assert Continues(ss, s0, s1);
    ss, t := TwoLook(s1, q, r, s0, ss);
  }

  lemma TwoLook(s: State, q: Pid, r: Pid, start: State, before: seq<State>) returns (ss: seq<State>, t: State)
    requires Continues(before, start, s) && q != r && s.issued != []
    requires s.file.Some? && NeedsRefresh(s.file.value, s.now) && Reclaimable(s)
    requires PhaseOf(s, q) == Start && PhaseOf(s, r) == Start
    ensures Continues(ss, start, t)
    ensures t == s.(procs := t.procs)
    ensures PhaseOf(t, q) == Reclaiming(s.file.value) && PhaseOf(t, r) == Reclaiming(s.file.value)
  {
    var f := s.file.value;
    var s1 := Look(s, q);
    ss := By(before, start, s, q, s1);
    var s2 := Look(s1, r);
    ss := By(ss, start, s1, r, s2);
    var s3 := Moved(s2, q, Reclaiming(f));
    ss := By(ss, start, s2, q, s3);
    t := Moved(s3, r, Reclaiming(f));
    ss := By(ss, start, s3, r, t);
  }

  /** One removes the dead owner's directory and enters, the other removes that one's. */
  lemma BothGetIn(s: State, q: Pid, r: Pid, f: Session) returns (ss: seq<State>, t: State)
    requires s.issued != [] && q != r && s.file == Some(f) && NeedsRefresh(f, s.now)
    requires PhaseOf(s, q) == Reclaiming(f) && PhaseOf(s, r) == Reclaiming(f)
    ensures Continues(ss, s, t) && t.issued == s.issued && t.rejected == s.rejected
    ensures PhaseOf(t, q) == Calling(f) && PhaseOf(t, r) == Calling(f)
  {
    ss := [s];
    var s1 := Moved(s.(lock := None), q, Waiting(f));
    ss := By(ss, s, s, q, s1);
    var s2 := Take(s1, q, f);
    ss := By(ss, s, s1, q, s2);
    var s3 := Moved(s2.(lock := None), r, Waiting(f));
    ss := By(ss, s, s2, r, s3);
    var s4 := Take(s3, r, f);
    ss := By(ss, s, s3, r, s4);
    var s5 := LookAgain(s4, q, f);
    ss := By(ss, s, s4, q, s5);
    t := LookAgain(s5, r, f);
    ss := By(ss, s, s5, r, t);
  }

  /** Both present the same token: the server turns one of them down. */
  lemma OneIsRejected(s: State, q: Pid, r: Pid, f: Session) returns (ss: seq<State>, t: State)
    requires s.issued != [] && q != r && PhaseOf(s, q) == Calling(f) && PhaseOf(s, r) == Calling(f)
    ensures Continues(ss, s, t) && t.rejected > s.rejected
  {
    ss := [s];
    var s1 := Refresh(s, q, f, f);
    ss := By(ss, s, s, q, s1);
    t := Refresh(s1, r, f, f);
    ss := By(ss, s, s1, r, t);
  }

  lemma {:induction false} Bounded(pids: set<Pid>) returns (bound: nat)
    ensures forall p <- pids :: p < bound
  {
    if pids == {} {
      bound := 0;
    } else {
      var p :| p in pids;
      var rest := Bounded(pids - {p});
      bound := if p < rest then rest else p + 1;
      forall x | x in pids ensures x < bound { assert x == p || x in pids - {p}; }
    }
  }

  /** A process dying inside, wherever it stands, can be followed by a rejected refresh. */
  lemma DyingInsideIsHarmful(s: State, p: Pid) returns (ss: seq<State>, t: State)
    requires Inv(s) && InSection(PhaseOf(s, p))
    ensures Continues(ss, Moved(s, p, Crashed), t) && t.rejected > 0
  {
    var bound := Bounded(s.procs.Keys + {p});
    var q, r := bound, bound + 1;
    var f := s.file.value;
    ss, t := TwoFindItStale(s, p, q, r);
    var tt, u := BothGetIn(t, q, r, f);
    var all := Chained(ss, Moved(s, p, Crashed), t, tt, u);
    var vv, v := OneIsRejected(u, q, r, f);
    ss := Chained(all, Moved(s, p, Crashed), u, vv, v);
    t := v;
  }

  lemma {:induction false} ContinuesInv(ss: seq<State>, s: State, t: State, i: nat)
    requires Continues(ss, s, t) && Inv(s) && i < |ss|
    ensures Inv(ss[i])
  {
    if i > 0 {
      ContinuesInv(ss, s, t, i - 1);
      NextInv(ss[i - 1], ss[i]);
    }
  }

  /** However the others go on, no refresh is ever rejected after this death. */
  ghost predicate DeathIsHarmless(s: State, p: Pid) {
    forall ss, t :: Continues(ss, Moved(s, p, Crashed), t) ==> t.rejected == 0
  }

  /** The condition on crashes is exact: a death is harmless if and only if it is outside. */
  lemma DeathIsHarmlessIff(s: State, p: Pid)
    requires Inv(s) && CanCrash(PhaseOf(s, p))
    ensures DeathIsHarmless(s, p) <==> !InSection(PhaseOf(s, p))
  {
    if InSection(PhaseOf(s, p)) {
      var ss, t := DyingInsideIsHarmful(s, p);
      assert !DeathIsHarmless(s, p);
    } else {
      CrashInv(s, p);
      forall ss, t | Continues(ss, Moved(s, p, Crashed), t) ensures t.rejected == 0 {
        ContinuesInv(ss, Moved(s, p, Crashed), t, |ss| - 1);
      }
    }
  }

  // -------------------------------------------------------------------- one refresh

  /** Every pair the server issued stays outside both refresh windows. */
  predicate Roomy(s: State) {
    forall k :: 1 <= k < |s.issued| ==>
      && s.issued[k].accessExpires > s.now + 300
      && !s.issued[k].refreshExpires.Unreadable?
      && (s.issued[k].refreshExpires.At? ==> s.issued[k].refreshExpires.time > s.now + 86400)
  }

  /** At most one rotation, and whoever waited for the lock came away with its pair. */
  ghost predicate OnceInv(s: State) {
    && 1 <= |s.issued| <= 2
    && forall p :: OnceFor(s, PhaseOf(s, p))
  }

  predicate OnceFor(s: State, ph: Phase) {
    match ph
    case Writing(_) => |s.issued| == 2
    case Unlocking(Some(r)) => |s.issued| == 2 && r == s.issued[1]
    case Done(Some(r), true) => |s.issued| == 2 && r == s.issued[1]
    case _ => true
  }

  lemma OnceStep(s: State, p: Pid, s': State)
    requires Inv(s) && Roomy(s) && OnceInv(s) && Step(s, p, s')
    ensures OnceInv(s')
  {
    OnlyOneMoves(s, p, s');
    assert PhaseOk(s, p) && OnceFor(s, PhaseOf(s, p));
    if InSection(PhaseOf(s, p)) && !PhaseOf(s, p).Writing? {
      forall q ensures !PhaseOf(s, q).Writing? { assert InSection(PhaseOf(s, q)) ==> s.lock.value.owner == q; }
      assert s.file == Some(s.issued[Newest(s)]);
    }
    forall q ensures OnceFor(s', PhaseOf(s', q)) {
      assert OnceFor(s, PhaseOf(s, q));
    }
  }

  lemma OnceNext(s: State, s': State)
    requires Inv(s) && Roomy(s) && OnceInv(s) && Next(s, s')
    ensures OnceInv(s')
  {
    if p :| Step(s, p, s') {
      OnceStep(s, p, s');
    } else if p :| CanCrash(PhaseOf(s, p)) && s' == Moved(s, p, Crashed) {
      OnlyOneMoves(s, p, s');
      forall q ensures OnceFor(s', PhaseOf(s', q)) { assert OnceFor(s, PhaseOf(s, q)); }
    } else {
      forall q ensures OnceFor(s', PhaseOf(s', q)) { assert OnceFor(s, PhaseOf(s, q)); }
    }
  }

  lemma OnceAt(ss: seq<State>, i: nat)
    requires Run(ss) && Sound(ss) && i + 1 < |ss| && Roomy(ss[i]) && OnceInv(ss[i])
    ensures OnceInv(ss[i + 1])
  {
    RunInv(ss, i);
    OnceNext(ss[i], ss[i + 1]);
  }

  lemma {:induction false} RunOnce(ss: seq<State>, i: nat)
    requires Run(ss) && Sound(ss) && i < |ss| && (forall j :: 0 <= j < |ss| ==> Roomy(ss[j]))
    ensures OnceInv(ss[i])
  {
    if i > 0 {
      RunOnce(ss, i - 1);
      OnceAt(ss, i - 1);
    }
  }

  /** However many processes saw the expiring session, the server rotates at most once while
      the new pair is good, and every one of them that succeeds returns that one pair. */
  lemma ExactlyOneRefresh(ss: seq<State>, i: nat, p: Pid)
    requires Run(ss) && Sound(ss) && i < |ss| && (forall j :: 0 <= j < |ss| ==> Roomy(ss[j]))
    ensures |ss[i].issued| <= 2
    ensures PhaseOf(ss[i], p).Done? && PhaseOf(ss[i], p).waited && PhaseOf(ss[i], p).result.Some? ==>
              |ss[i].issued| == 2 && PhaseOf(ss[i], p).result.value == ss[i].issued[1]
  {
    RunOnce(ss, i);
    assert OnceFor(ss[i], PhaseOf(ss[i], p));
  }

  // ------------------------------------------------------------- the call as a program

  /** The other processes leave p's own position to p, and the server's history grows. */
  ghost predicate Undisturbed(s: State, p: Pid, s': State) {
    PhaseOf(s', p) == PhaseOf(s, p) && s'.now >= s.now && s.issued <= s'.issued
  }

  /** What can happen besides p's own steps. */
  ghost predicate OthersStep(s: State, p: Pid, s': State) {
    || (exists q :: q != p && Step(s, q, s'))
    || (exists q :: q != p && CanCrash(PhaseOf(s, q)) && s' == Moved(s, q, Crashed))
    || Tick(s, s')
  }

  lemma OthersUndisturb(s: State, p: Pid, s': State)
    requires OthersStep(s, p, s')
    ensures Undisturbed(s, p, s')
  {
    if q :| q != p && Step(s, q, s') { StepUndisturbs(s, q, s', p); }
  }

  lemma StepUndisturbs(s: State, q: Pid, s': State, p: Pid)
    requires q != p && Step(s, q, s')
    ensures Undisturbed(s, p, s')
  {
    OnlyOneMoves(s, q, s');
  }

  /** And so does any number of their steps. */
  lemma {:induction false} OthersUndisturbFor(ss: seq<State>, p: Pid, i: nat)
    requires i < |ss| && forall k, j :: 0 <= k < j < |ss| && j == k + 1 ==> OthersStep(ss[k], p, ss[j])
    ensures Undisturbed(ss[0], p, ss[i])
  {
    if i > 0 {
      OthersUndisturbFor(ss, p, i - 1);
      OthersUndisturb(ss[i - 1], p, ss[i]);
    }
  }

  class Machine {
    var s: State
    ghost var run: seq<State>

    ghost predicate Valid()
      reads this
    {
      Run(run) && run[|run| - 1] == s
    }

    /** The schedule between two steps of p: callers know only this contract. */
    method Others(p: Pid)
      requires Valid()
      modifies this
      ensures Valid() && old(run) <= run && Undisturbed(old(s), p, s)
    {
    }

    method Do(p: Pid, next: State)
      requires Valid() && Step(s, p, next)
      modifies this
      ensures Valid() && old(run) < run && Undisturbed(next, p, s)
    {
      assert Next(s, next);
      s := next;
      run := run + [next];
      Others(p);
    }

    /** Poll for the lock directory; one that looks stale is removed by a later call. */
    method AcquireLock(p: Pid) returns (ok: bool)
      requires Valid() && PhaseOf(s, p).Waiting?
      modifies this
      ensures Valid() && old(run) <= run
      ensures ok ==> PhaseOf(s, p).Locked?
      ensures !ok ==> PhaseOf(s, p) == Done(None, true)
    {
      var polls: nat := *;
      while polls > 0
        invariant Valid() && old(run) <= run && PhaseOf(s, p).Waiting?
      {
        RunBase(run, |run| - 1);
        if s.lock.None? {
          Do(p, Take(s, p, PhaseOf(s, p).seen));
          return true;
        }
        if Reclaimable(s) {
          Do(p, Moved(s, p, Reclaiming(PhaseOf(s, p).seen)));
          RunBase(run, |run| - 1);
          Do(p, Moved(s.(lock := None), p, Waiting(PhaseOf(s, p).seen)));
        } else {
          Others(p);
        }
        polls := polls - 1;
      }
      RunBase(run, |run| - 1);
      Do(p, Moved(s, p, Done(None, true)));
      ok := false;
    }

    /** ensureAgentRelayCloudSession, file case: a session that did not need rolling is
        returned as read; whatever is returned was issued by the server; and in a sound run
        the server never turned anybody down. */
    method EnsureSession(p: Pid, answer: Session) returns (result: Option<Session>)
      requires Valid() && PhaseOf(s, p) == Start
      modifies this
      ensures Valid() && old(run) <= run
      ensures PhaseOf(s, p).Done? && PhaseOf(s, p).result == result
      ensures result.Some? ==> result.value in s.issued
      ensures !PhaseOf(s, p).waited && result.Some? ==>
                && result.value.accessExpires > old(s).now + 300
                && !result.value.refreshExpires.Unreadable?
                && (result.value.refreshExpires.At? ==> result.value.refreshExpires.time > old(s).now + 86400)
      ensures && old(s).file.Some?
              && old(s).file.value.accessExpires > old(s).now + 300
              && !old(s).file.value.refreshExpires.Unreadable?
              && (old(s).file.value.refreshExpires.At? ==> old(s).file.value.refreshExpires.time > old(s).now + 86400)
              ==> result == old(s).file && !PhaseOf(s, p).waited
      ensures Sound(run) ==> s.rejected == 0
    {
      RunBase(run, |run| - 1);
      Do(p, Look(s, p));
      if PhaseOf(s, p).Done? {
        result := PhaseOf(s, p).result;
      } else {
        var ok := AcquireLock(p);
        result := None;
        if ok {
          result := InsideLock(p, answer);
        }
      }
      RunBase(run, |run| - 1);
      assert SessionOk(s, PhaseOf(s, p));
      if Sound(run) { RunInv(run, |run| - 1); }
    }

    /** With the lock held: look again, roll if it is still needed, let the lock go. */
    method InsideLock(p: Pid, answer: Session) returns (result: Option<Session>)
      requires Valid() && PhaseOf(s, p).Locked?
      modifies this
      ensures Valid() && old(run) <= run && PhaseOf(s, p) == Done(result, true)
    {
      RunBase(run, |run| - 1);
      Do(p, LookAgain(s, p, PhaseOf(s, p).seen));
      if PhaseOf(s, p).Calling? {
        Roll(p, answer);
      }
      RunBase(run, |run| - 1);
      result := PhaseOf(s, p).result;
      Do(p, Unlock(s, p, result));
    }

    /** Present the refresh token and write the rotated pair back; a rejected or failed
        refresh yields nothing. */
    method Roll(p: Pid, answer: Session)
      requires Valid() && PhaseOf(s, p).Calling?
      modifies this
      ensures Valid() && old(run) <= run && PhaseOf(s, p).Unlocking?
      ensures PhaseOf(s, p).result.Some? ==> PhaseOf(s, p).result.value in s.issued
    {
      RunBase(run, |run| - 1);
      var reached: bool := *;
      if !reached {
        Do(p, Moved(s, p, Unlocking(None)));
        return;
      }
      Do(p, Refresh(s, p, PhaseOf(s, p).auth, answer));
      RunBase(run, |run| - 1);
      if PhaseOf(s, p).Writing? {
        assert SessionOk(s, PhaseOf(s, p));
        Do(p, WriteBack(s, p, PhaseOf(s, p).pair));
      }
    }
  }
}
