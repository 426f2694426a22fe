/**
 The authoritative side of a checkpoint seal: one record of the server's store and the
 operations that move its ownership.  Every operation runs under the store's mutation
 lock, so each is one function from the record (and the current durable workspace state)
 to the new record and the reply.
 */
module SealStore {
  import opened Common

  /** An idempotency key; the store compares hashes of keys, taken to be injective. */
  type Key = nat

  /** The durable workspace state a seal attests: content digest and revision.
      Every mutation of a workspace takes a fresh, larger revision. */
  datatype Workspace = Workspace(digest: nat, revision: nat)

  datatype Preparation = Preparation(key: Key, state: Workspace)

  datatype ResumeMark = NotResumed | ResumedBy(key: Key) | ReconciledBy(adminKey: Key)

  datatype Seal = Seal(
    id: nat,
    issued: Workspace,
    consumer: Option<Key>,
    preparation: Option<Preparation>,
    released: Option<Workspace>,
    resumed: ResumeMark)

  datatype Phase = Prepare | Commit

  datatype Refusal =
    | Diverged | HandbackRequired | HandbackUnprepared | HandbackConflict | ResumeConflict
    | ConsumerConflict | Replayed | Unconsumed | Expired | Stale | NotFound | AdminConflict

  /** The ownership status a reply carries. */
  datatype OwnershipStatus = PreparedStatus | ReleasedStatus | SourceResumedStatus

  /** A tokenless proof of ownership. */
  datatype Ownership = Ownership(sealId: nat, status: OwnershipStatus, state: Workspace, sourceResumed: bool)

  datatype Reply = Granted(proof: Ownership) | Refused(code: Refusal)

  function Issue(id: nat, current: Workspace): Seal {
    Seal(id, current, None, None, None, NotResumed)
  }

  function OwnershipOf(s: Seal, status: OwnershipStatus, state: Workspace): Ownership {
    Ownership(s.id, status, state, !s.resumed.NotResumed?)
  }

  /** A destination takes ownership of an unexpired seal whose workspace has not moved. */
  function Consume(s: Seal, current: Workspace, key: Key, expired: bool): (Seal, Option<Refusal>) {
    if s.released.Some? || !s.resumed.NotResumed? then (s, Some(Replayed))
    else if s.consumer.Some? then (s, if s.consumer.value == key then None else Some(Replayed))
    else if expired then (s, Some(Expired))
    else if current != s.issued then (s, Some(Stale))
    else (s.(consumer := Some(key)), None)
  }

  /** One phase of the destination's release. */
  function Handback(s: Seal, current: Workspace, phase: Phase, consumer: Key, key: Key, expected: nat): (Seal, Reply) {
    if s.consumer.None? then (s, Refused(Unconsumed))
    else if s.consumer.value != consumer then (s, Refused(ConsumerConflict))
    else if s.released.Some? then
      if s.preparation.None? || s.preparation.value.key != key || s.released.value.digest != expected
      then (s, Refused(HandbackConflict))
      else (s, Granted(OwnershipOf(s, ReleasedStatus, s.released.value)))
    else if !s.resumed.NotResumed? then (s, Refused(ResumeConflict))
    else if s.preparation.Some? then
      var p := s.preparation.value;
      if p.key != key || p.state.digest != expected then (s, Refused(HandbackConflict))
      else if current != p.state then (s, Refused(Diverged))
      else if phase == Prepare then (s, Granted(OwnershipOf(s, PreparedStatus, p.state)))
      else (s.(released := Some(p.state)), Granted(OwnershipOf(s, ReleasedStatus, p.state)))
    else if phase == Commit then (s, Refused(HandbackUnprepared))
    else if current.digest != expected then (s, Refused(Diverged))
    else (s.(preparation := Some(Preparation(key, current))), Granted(OwnershipOf(s, PreparedStatus, current)))
  }

  /** The stopped source claims ownership back: directly while the seal is unconsumed, and
      only after the destination's release once it is consumed. */
  function Resume(s: Seal, current: Workspace, key: Key): (Seal, Reply) {
    if s.resumed.ResumedBy? && s.resumed.key == key && s.released.Some? then
      (s, Granted(OwnershipOf(s, SourceResumedStatus, s.released.value)))
    else if !s.resumed.NotResumed? then (s, Refused(ResumeConflict))
    else if s.consumer.Some? && s.released.None? then (s, Refused(HandbackRequired))
    else
      var r := if s.released.Some? then s.released.value else current;
      var s' := s.(released := Some(r), resumed := ResumedBy(key));
      (s', Granted(OwnershipOf(s', SourceResumedStatus, r)))
  }

  /** Break-glass reconciliation: an administrator asserts the source is ready. */
  function Reconcile(s: Seal, expectReleased: bool, key: Key): (Seal, Option<Refusal>) {
    if !s.resumed.NotResumed? then
      (s, if s.resumed.ReconciledBy? && s.resumed.adminKey == key then None else Some(AdminConflict))
    else if s.released.None? && s.consumer.Some? then (s, Some(HandbackRequired))
    else if s.released.Some? != expectReleased then (s, Some(AdminConflict))
    else (s.(resumed := ReconciledBy(key)), None)
  }

  /** The destination owns the workspace: it consumed the seal and nothing moved it on. */
  predicate DestinationOwns(s: Seal) {
    s.consumer.Some? && s.released.None? && s.resumed.NotResumed?
  }

  /** The source owns the workspace again. */
  predicate SourceOwns(s: Seal) {
    !s.resumed.NotResumed?
  }

  /** What every record in the store satisfies. */
  predicate WellFormed(s: Seal) {
    && (s.resumed.ResumedBy? ==> s.released.Some?)
    && (s.resumed.ReconciledBy? && s.consumer.Some? ==> s.released.Some?)
    && (s.preparation.Some? ==> s.consumer.Some?)
    && (s.released.Some? && s.consumer.Some? ==>
        s.preparation.Some? && s.preparation.value.state == s.released.value)
    && (s.released.Some? && s.consumer.None? ==> !s.resumed.NotResumed?)
  }

  /** Any operation of the store on an existing record. */
  ghost predicate Operation(s: Seal, s': Seal) {
    || (exists c, k, e :: s' == Consume(s, c, k, e).0)
    || (exists c, p, k, h, d :: s' == Handback(s, c, p, k, h, d).0)
    || (exists c, k :: s' == Resume(s, c, k).0)
    || (exists e, k :: s' == Reconcile(s, e, k).0)
  }

  /** No operation lets the source own a workspace the destination still owns, ownership
      only moves forward, and what an operation bound stays bound. */
  lemma OperationKeepsOwnership(s: Seal, s': Seal)
    requires WellFormed(s) && Operation(s, s')
    ensures WellFormed(s')
    ensures DestinationOwns(s) ==> !SourceOwns(s')
    ensures SourceOwns(s) ==> SourceOwns(s') && s'.resumed == s.resumed
    ensures s.consumer.Some? ==> s'.consumer == s.consumer
    ensures s.released.Some? ==> s'.released == s.released
    ensures s.preparation.Some? ==> s'.preparation == s.preparation
    ensures s.released.Some? || SourceOwns(s) ==> s'.consumer == s.consumer
    ensures s'.id == s.id && s'.issued == s.issued
  {
  }

  /** The one refusal a destination may restart after is never given once ownership is
      released, and it leaves the record as it was. */
  lemma DivergedOnlyBeforeRelease(s: Seal, current: Workspace, phase: Phase, consumer: Key, key: Key, expected: nat)
    ensures Handback(s, current, phase, consumer, key, expected).1 == Refused(Diverged) ==>
              s.released.None? && Handback(s, current, phase, consumer, key, expected).0 == s
  {
  }

  /** A release whose reply was lost is recovered by the exact retry, whichever phase it
      restarts at and however the workspace moved in between; the retry changes nothing. */
  lemma HandbackRetryRecovers(s: Seal, current: Workspace, consumer: Key, key: Key, expected: nat,
                              later: Workspace, phase: Phase)
    requires WellFormed(s) && s.released.None?
    requires Handback(s, current, Commit, consumer, key, expected).1.Granted?
    ensures var s' := Handback(s, current, Commit, consumer, key, expected).0;
            && s'.released == Some(current)
            && Handback(s', later, phase, consumer, key, expected)
               == (s', Handback(s, current, Commit, consumer, key, expected).1)
  {
  }

  /** A source claim is idempotent on its key, and only on its key. */
  lemma ResumeRetryRecovers(s: Seal, current: Workspace, key: Key, later: Workspace, other: Key)
    requires WellFormed(s) && Resume(s, current, key).1.Granted?
    ensures var s' := Resume(s, current, key).0;
            && SourceOwns(s')
            && Resume(s', later, other) ==
               if other == key then (s', Resume(s, current, key).1) else (s', Refused(ResumeConflict))
  {
  }

  /** The source is granted ownership exactly when it has it already under this key, or nobody
      has resumed and no destination holds it; and the proof says so. */
  lemma ResumeGrantedIff(s: Seal, current: Workspace, key: Key)
    requires WellFormed(s)
    ensures var (s', reply) := Resume(s, current, key);
            && (reply.Granted? <==>
                  s.resumed == ResumedBy(key) || (s.resumed == NotResumed && (s.consumer.None? || s.released.Some?)))
            && (reply == Refused(HandbackRequired) <==> s.consumer.Some? && s.released.None? && s.resumed == NotResumed)
            && (reply == Refused(ResumeConflict) <==> s.resumed != NotResumed && s.resumed != ResumedBy(key))
            && (reply.Granted? ==>
                  && s'.resumed == ResumedBy(key)
                  && s'.released == (if s.released.Some? then s.released else Some(current))
                  && reply.proof == Ownership(s.id, SourceResumedStatus, s'.released.value, true))
            && (!reply.Granted? ==> s' == s)
            && s' == s.(released := s'.released, resumed := s'.resumed)
  {
  }

  /** Who may prepare or commit a handback, and when: the consumer, under the key and digest
      it prepared with, while the workspace stands where it was prepared; or, to prepare, while
      it stands at the digest the consumer expects. */
  lemma HandbackGrantedIff(s: Seal, current: Workspace, phase: Phase, consumer: Key, key: Key, expected: nat)
    requires WellFormed(s)
    ensures var reply := Handback(s, current, phase, consumer, key, expected).1;
            reply.Granted? <==>
              && s.consumer == Some(consumer)
              && (|| (&& s.released.Some? && s.released.value.digest == expected
                      && s.preparation.Some? && s.preparation.value.key == key)
                  || (&& s.released.None? && s.resumed == NotResumed
                      && s.preparation == Some(Preparation(key, current)) && current.digest == expected)
                  || (&& phase == Prepare && s.released.None? && s.resumed == NotResumed
                      && s.preparation.None? && current.digest == expected))
  {
  }

  /** What a granted handback changes and proves, and that a refused one changes nothing. */
  lemma HandbackEffect(s: Seal, current: Workspace, phase: Phase, consumer: Key, key: Key, expected: nat)
    requires WellFormed(s)
    ensures var (s', reply) := Handback(s, current, phase, consumer, key, expected);
            && s' == s.(preparation := s'.preparation, released := s'.released)
            && (s'.released != s.released ==>
                  && phase == Commit && s.consumer == Some(consumer) && s.released.None? && s.resumed == NotResumed
                  && s.preparation == Some(Preparation(key, current)) && s'.released == Some(current))
            && (s'.preparation != s.preparation ==>
                  && phase == Prepare && s.consumer == Some(consumer) && s.released.None? && s.resumed == NotResumed
                  && s.preparation.None? && s'.preparation == Some(Preparation(key, current)) && current.digest == expected)
            && (reply.Refused? ==> s' == s)
            && (reply.Granted? && s'.released.Some? ==>
                  reply.proof == Ownership(s.id, ReleasedStatus, s'.released.value, s.resumed != NotResumed))
            && (reply.Granted? && s'.released.None? ==>
                  reply.proof == Ownership(s.id, PreparedStatus, current, false))
  {
  }

  /** The refusal after which a destination may restart: exactly when ownership is still its
      own and the workspace is not where the handback was or would be prepared. */
  lemma HandbackDivergedIff(s: Seal, current: Workspace, phase: Phase, consumer: Key, key: Key, expected: nat)
    requires WellFormed(s)
    ensures Handback(s, current, phase, consumer, key, expected).1 == Refused(Diverged) <==>
              && s.consumer == Some(consumer) && s.released.None? && s.resumed == NotResumed
              && (|| (s.preparation.Some? && s.preparation.value.key == key
                      && s.preparation.value.state.digest == expected && current != s.preparation.value.state)
                  || (phase == Prepare && s.preparation.None? && current.digest != expected))
    ensures Handback(s, current, phase, consumer, key, expected).1 == Refused(ConsumerConflict) <==>
              s.consumer.Some? && s.consumer.value != consumer
    ensures Handback(s, current, phase, consumer, key, expected).1 == Refused(Unconsumed) <==> s.consumer.None?
  {
  }

  /** Who may consume, and when: once, before it expires, while the workspace stands exactly
      where it was sealed; the same consumer may ask again until ownership moves on. */
  lemma ConsumeAcceptedIff(s: Seal, current: Workspace, key: Key, expired: bool)
    requires WellFormed(s)
    ensures var (s', refusal) := Consume(s, current, key, expired);
            && (refusal.None? <==>
                  && s.released.None? && s.resumed == NotResumed
                  && (s.consumer == Some(key) || (s.consumer.None? && !expired && current == s.issued)))
            && (refusal.None? ==> s' == s.(consumer := Some(key)))
            && (refusal.Some? ==> s' == s)
  {
  }

  /** When an administrator's reconciliation is accepted, and that it only marks the source. */
  lemma ReconcileAcceptedIff(s: Seal, expectReleased: bool, key: Key)
    requires WellFormed(s)
    ensures var (s', refusal) := Reconcile(s, expectReleased, key);
            && (refusal.None? <==>
                  || s.resumed == ReconciledBy(key)
                  || (s.resumed == NotResumed && s.released.Some? == expectReleased && (s.consumer.None? || s.released.Some?)))
            && (refusal.None? ==> s' == s.(resumed := ReconciledBy(key)))
            && (refusal.Some? ==> s' == s)
  {
  }
}
