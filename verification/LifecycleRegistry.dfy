/**
 The directory of source lifecycles: how a controller-chosen id is bound to a root, a
 session and a generation, and how generations are kept strictly increasing.  Commands on
 one root are serialized by its lifecycle lock.
 */
module LifecycleRegistry {
  import opened Common

  type Id = nat

  /** One record file; `content` stands for everything that is not its identity. */
  datatype Lifecycle = Lifecycle(id: Id, root: nat, session: nat, generation: nat, content: nat)

  datatype SealRequest = SealRequest(id: Id, root: nat, session: nat, generation: nat)

  datatype Command =
    | BeginSeal(req: SealRequest, active: bool, content: nat, saved: bool)
    | Rewrite(id: Id, content: nat)

  datatype Verdict = Existing(found: Lifecycle) | IdentityConflict | GenerationStale | NoActiveMount | NotSaved | Created

  predicate SameIdentity(l: Lifecycle, r: SealRequest) {
    l.root == r.root && l.session == r.session && l.generation == r.generation
  }

  predicate SameSession(l: Lifecycle, r: SealRequest) {
    l.root == r.root && l.session == r.session
  }

  // -------------------------------------------------------------------- specification

  /** The position of an id's record, or |files|. */
  function IndexOf(files: seq<Lifecycle>, id: Id): (k: nat)
    ensures k <= |files|
    ensures k < |files| ==> files[k].id == id
    ensures forall i :: 0 <= i < k ==> files[i].id != id
  {
    if files == [] then 0
    else if files[0].id == id then 0
    else 1 + IndexOf(files[1..], id)
  }

  predicate Stale(files: seq<Lifecycle>, r: SealRequest) {
    exists i :: 0 <= i < |files| && SameSession(files[i], r) && files[i].generation >= r.generation
  }

  predicate Taken(files: seq<Lifecycle>, r: SealRequest) {
    exists i :: 0 <= i < |files| && SameIdentity(files[i], r)
  }

  /** What checkpoint-seal decides from the directory before its first effect. */
  function Decide(files: seq<Lifecycle>, r: SealRequest, active: bool, saved: bool): Verdict {
    var k := IndexOf(files, r.id);
    if k < |files| then if SameIdentity(files[k], r) then Existing(files[k]) else IdentityConflict
    else if Taken(files, r) then IdentityConflict
    else if Stale(files, r) then GenerationStale
    else if !active then NoActiveMount
    else if !saved then NotSaved
    else Created
  }

  function Apply(files: seq<Lifecycle>, c: Command): seq<Lifecycle> {
    match c
    case BeginSeal(r, active, content, saved) =>
      if Decide(files, r, active, saved) == Created
      then files + [Lifecycle(r.id, r.root, r.session, r.generation, content)]
      else files
    case Rewrite(id, content) =>
      var k := IndexOf(files, id);
      if k < |files| then files[k := files[k].(content := content)] else files
  }

  function ApplyAll(files: seq<Lifecycle>, cs: seq<Command>): seq<Lifecycle>
    decreases |cs|
  {
    if cs == [] then files else ApplyAll(Apply(files, cs[0]), cs[1..])
  }

  /** Ids are unique; within one root and session, generations grow in creation order. */
  ghost predicate Ordered(files: seq<Lifecycle>) {
    && (forall i, j :: 0 <= i < j < |files| ==> files[i].id != files[j].id)
    && (forall i, j :: 0 <= i < j < |files| && files[i].root == files[j].root && files[i].session == files[j].session ==>
          files[i].generation < files[j].generation)
  }

  /** The later directory extends the earlier one: same records in the same places, each
      bound to the identity it was created with. */
  ghost predicate Extends(before: seq<Lifecycle>, after: seq<Lifecycle>) {
    && |before| <= |after|
    && forall i :: 0 <= i < |before| ==> after[i] == before[i].(content := after[i].content)
  }

  lemma CreateOrdered(files: seq<Lifecycle>, l: Lifecycle)
    requires Ordered(files) && IndexOf(files, l.id) == |files|
    requires !Stale(files, SealRequest(l.id, l.root, l.session, l.generation))
    ensures Ordered(files + [l]) && Extends(files, files + [l])
  {
    forall i | 0 <= i < |files| && files[i].root == l.root && files[i].session == l.session
      ensures files[i].generation < l.generation
    {
      assert SameSession(files[i], SealRequest(l.id, l.root, l.session, l.generation));
    }
  }

  lemma RewriteOrdered(files: seq<Lifecycle>, k: nat, content: nat)
    requires Ordered(files) && k < |files|
    ensures var after := files[k := files[k].(content := content)]; Ordered(after) && Extends(files, after)
  {
  }

  lemma ApplyOrdered(files: seq<Lifecycle>, c: Command)
    requires Ordered(files)
    ensures Ordered(Apply(files, c)) && Extends(files, Apply(files, c))
  {
    match c
    case BeginSeal(r, active, content, saved) =>
      if Decide(files, r, active, saved) == Created {
        CreateOrdered(files, Lifecycle(r.id, r.root, r.session, r.generation, content));
      }
    case Rewrite(id, content) =>
      if IndexOf(files, id) < |files| { RewriteOrdered(files, IndexOf(files, id), content); }
  }

  /** Whatever commands run, from an empty directory: no id is rebound, no two lifecycles of
      a root and session share a generation, and each new one is larger than all before. */
  lemma {:induction false} GenerationsIncrease(files: seq<Lifecycle>, cs: seq<Command>)
    requires Ordered(files)
    ensures Ordered(ApplyAll(files, cs)) && Extends(files, ApplyAll(files, cs))
    decreases |cs|
  {
    if cs != [] {
      ApplyOrdered(files, cs[0]);
      GenerationsIncrease(Apply(files, cs[0]), cs[1..]);
    }
  }

  /** An id that has a record answers, after any commands, for the root, session and generation
      it was created with, and conflicts with a request that differs in any of them. */
  lemma IdentityIsForLife(files: seq<Lifecycle>, cs: seq<Command>, r: SealRequest, active: bool, saved: bool, k: nat)
    requires Ordered(files) && k < |files| && files[k].id == r.id
    ensures var verdict := Decide(ApplyAll(files, cs), r, active, saved);
            if files[k].root == r.root && files[k].session == r.session && files[k].generation == r.generation
            then verdict.Existing? && verdict.found == files[k].(content := verdict.found.content)
            else verdict == IdentityConflict
  {
    GenerationsIncrease(files, cs);
    var after := ApplyAll(files, cs);
    assert after[k].id == r.id;
    assert IndexOf(after, r.id) == k;
  }

  /** What a request under a new id is answered, over the stored records. */
  lemma NewIdAnswers(files: seq<Lifecycle>, r: SealRequest, active: bool, saved: bool)
    requires forall i :: 0 <= i < |files| ==> files[i].id != r.id
    ensures var verdict := Decide(files, r, active, saved);
            && (verdict == IdentityConflict <==>
                  exists i :: 0 <= i < |files| && files[i].root == r.root && files[i].session == r.session && files[i].generation == r.generation)
            && (verdict == Created <==>
                  && active && saved
                  && forall i :: 0 <= i < |files| && files[i].root == r.root && files[i].session == r.session ==> files[i].generation < r.generation)
            && (verdict == GenerationStale ==>
                  exists i :: 0 <= i < |files| && files[i].root == r.root && files[i].session == r.session && files[i].generation > r.generation)
            && (verdict == NoActiveMount ==> !active) && (verdict == NotSaved ==> active && !saved)
            && !verdict.Existing?
  {
    assert IndexOf(files, r.id) == |files|;
    assert Taken(files, r) <==>
      exists i :: 0 <= i < |files| && files[i].root == r.root && files[i].session == r.session && files[i].generation == r.generation by {
      if i :| 0 <= i < |files| && files[i].root == r.root && files[i].session == r.session && files[i].generation == r.generation {
        assert SameIdentity(files[i], r);
      }
    }
    assert Stale(files, r) <==>
      exists i :: 0 <= i < |files| && files[i].root == r.root && files[i].session == r.session && files[i].generation >= r.generation by {
      if i :| 0 <= i < |files| && files[i].root == r.root && files[i].session == r.session && files[i].generation >= r.generation {
        assert SameSession(files[i], r);
      }
    }
  }

  // ------------------------------------------- handback and verification identities

  /** What sameDestinationReceipt compares; a receipt that still carries its token matches
      nothing. */
  datatype ConsumedReceipt = ConsumedReceipt(content: nat, hasToken: bool)

  predicate SameReceipt(a: ConsumedReceipt, b: ConsumedReceipt) {
    !a.hasToken && !b.hasToken && a.content == b.content
  }

  datatype Attempt =
    | Handback(root: nat, consumerKey: nat, receipt: ConsumedReceipt)
    | Verification(root: nat, receipt: ConsumedReceipt)

  predicate SameAttempt(a: Attempt, b: Attempt) {
    match (a, b)
    case (Handback(r, k, x), Handback(r', k', x')) => r == r' && k == k' && SameReceipt(x, x')
    case (Verification(r, x), Verification(r', x')) => r == r' && SameReceipt(x, x')
    case _ => false
  }

  predicate HasToken(a: Attempt) {
    a.receipt.hasToken
  }

  /** One handback-seal or verify-seal call, as far as its directory is concerned: the input
      with a token is refused, a known id is checked, a new one is bound by the first save,
      and a later save writes what was loaded. */
  datatype Call = Call(id: Id, attempt: Attempt, active: bool, saved: bool)

  datatype Answer = Malformed | Conflict | Continued(bound: Attempt) | NotActive | Unsaved | Bound

  function AnswerTo(bound: map<Id, Attempt>, c: Call): Answer {
    if HasToken(c.attempt) then Malformed
    else if c.id in bound then if SameAttempt(bound[c.id], c.attempt) then Continued(bound[c.id]) else Conflict
    else if !c.active then NotActive
    else if !c.saved then Unsaved
    else Answer.Bound
  }

  function After(bound: map<Id, Attempt>, c: Call): map<Id, Attempt> {
    if AnswerTo(bound, c) == Answer.Bound then bound[c.id := c.attempt] else bound
  }

  function AfterAll(bound: map<Id, Attempt>, cs: seq<Call>): map<Id, Attempt>
    decreases |cs|
  {
    if cs == [] then bound else AfterAll(After(bound, cs[0]), cs[1..])
  }

  lemma {:induction false} BindingStays(bound: map<Id, Attempt>, cs: seq<Call>, id: Id)
    requires id in bound
    ensures id in AfterAll(bound, cs) && AfterAll(bound, cs)[id] == bound[id]
    decreases |cs|
  {
    if cs != [] {
      BindingStays(After(bound, cs[0]), cs[1..], id);
    }
  }

  /** Over any calls, an id goes on exactly for the root, receipt and consumer key it was first
      bound to, and conflicts with everything that differs in any of them. */
  lemma FirstBindingWins(bound: map<Id, Attempt>, cs: seq<Call>, c: Call)
    requires c.id in bound && !bound[c.id].receipt.hasToken && !c.attempt.receipt.hasToken
    ensures var first := bound[c.id]; var now := c.attempt;
            AnswerTo(AfterAll(bound, cs), c) ==
              if && first.root == now.root && first.receipt.content == now.receipt.content
                 && (|| (first.Verification? && now.Verification?)
                     || (first.Handback? && now.Handback? && first.consumerKey == now.consumerKey))
              then Continued(first) else Conflict
  {
    BindingStays(bound, cs, c.id);
  }

  /** No binding ever carries a token, and a call that does is refused and binds nothing. */
  lemma {:induction false} BindingsCarryNoToken(bound: map<Id, Attempt>, cs: seq<Call>)
    requires forall id :: id in bound ==> !bound[id].receipt.hasToken
    ensures forall id :: id in AfterAll(bound, cs) ==> !AfterAll(bound, cs)[id].receipt.hasToken
    ensures forall c: Call :: c.attempt.receipt.hasToken ==> AnswerTo(AfterAll(bound, cs), c) == Malformed
    decreases |cs|
  {
    if cs != [] { BindingsCarryNoToken(After(bound, cs[0]), cs[1..]); }
  }

  class AttemptDirectory {
    var bound: map<Id, Attempt>

    constructor ()
      ensures bound == map[]
    {
      bound := map[];
    }

    /** The opening of handback-seal or verify-seal, up to and including its first save. */
    method Open(c: Call) returns (answer: Answer)
      modifies this
      ensures answer == AnswerTo(old(bound), c) && bound == After(old(bound), c)
      ensures answer.Continued? <==> !HasToken(c.attempt) && c.id in old(bound) && SameAttempt(old(bound)[c.id], c.attempt)
      ensures forall id :: id in old(bound) ==> id in bound && bound[id] == old(bound)[id]
    {
      if c.attempt.receipt.hasToken {
        return Malformed;
      }
      if c.id in bound {
        var existing := bound[c.id];
        var same := match (existing, c.attempt)
                    case (Handback(r, k, x), Handback(r', k', x')) => r == r' && k == k' && SameReceipt(x, x')
                    case (Verification(r, x), Verification(r', x')) => r == r' && SameReceipt(x, x')
                    case _ => false;
        return if same then Continued(existing) else Conflict;
      }
      if !c.active {
        return NotActive;
      }
      if !c.saved {
        return Unsaved;
      }
      bound := bound[c.id := c.attempt];
      answer := Answer.Bound;
    }
  }

  // ------------------------------------------------------------------- the directory

  class Directory {
    var files: seq<Lifecycle>

    constructor ()
      ensures files == [] && Ordered(files)
    {
      files := [];
    }

    /** loadCheckpointLifecycleIfExists */
    method Load(id: Id) returns (found: Option<Lifecycle>)
      ensures found.Some? <==> IndexOf(files, id) < |files|
      ensures found.Some? ==> found.value == files[IndexOf(files, id)]
    {
      var i := 0;
      while i < |files|
        invariant 0 <= i <= |files|
        invariant forall j :: 0 <= j < i ==> files[j].id != id
      {
        if files[i].id == id {
          FirstAt(files, id, i);
          return Some(files[i]);
        }
        i := i + 1;
      }
      found := None;
    }

    /** findCheckpointLifecycle */
    method Find(r: SealRequest) returns (found: Option<Lifecycle>)
      ensures found.Some? <==> Taken(files, r)
      ensures found.Some? ==> found.value in files && SameIdentity(found.value, r)
    {
      for i := 0 to |files|
        invariant forall j :: 0 <= j < i ==> !SameIdentity(files[j], r)
      {
        if SameIdentity(files[i], r) {
          return Some(files[i]);
        }
      }
      found := None;
    }

    /** rejectStaleCheckpointGeneration */
    method RejectStale(r: SealRequest) returns (stale: bool)
      ensures stale <==> Stale(files, r)
    {
      for i := 0 to |files|
        invariant forall j :: 0 <= j < i ==> !(SameSession(files[j], r) && files[j].generation >= r.generation)
      {
        if SameSession(files[i], r) && files[i].generation >= r.generation {
          return true;
        }
      }
      stale := false;
    }

    /** The opening of checkpoint-seal, up to and including its first save. */
    method BeginSealing(r: SealRequest, active: bool, content: nat, saved: bool) returns (verdict: Verdict)
      requires Ordered(files)
      modifies this
      ensures verdict == Decide(old(files), r, active, saved)
      ensures files == Apply(old(files), BeginSeal(r, active, content, saved))
      ensures Ordered(files) && Extends(old(files), files)
      ensures verdict == Created ==>
                forall i :: 0 <= i < |old(files)| && SameSession(old(files)[i], r) ==> old(files)[i].generation < r.generation
    {
      ApplyOrdered(files, BeginSeal(r, active, content, saved));
      var existing := Load(r.id);
      if existing.Some? {
        return if SameIdentity(existing.value, r) then Existing(existing.value) else IdentityConflict;
      }
      var taken := Find(r);
      if taken.Some? {
        return IdentityConflict;
      }
      var stale := RejectStale(r);
      if stale {
        return GenerationStale;
      }
      if !active {
        return NoActiveMount;
      }
      if !saved {
        return NotSaved;
      }
      files := files + [Lifecycle(r.id, r.root, r.session, r.generation, content)];
      verdict := Created;
    }
  }

  lemma {:induction false} FirstAt(files: seq<Lifecycle>, id: Id, k: nat)
    requires k < |files| && files[k].id == id
    requires forall j :: 0 <= j < k ==> files[j].id != id
    ensures IndexOf(files, id) == k
  {
  }
}
