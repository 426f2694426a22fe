/** The order the Go standard library sorts by, and sorting itself: strings are compared by
    their characters from the front, which for UTF-8 agrees with comparing bytes. */
module Sorting {

  predicate Below(a: string, b: string) {
    if b == "" then false
    else if a == "" then true
    else a[0] < b[0] || (a[0] == b[0] && Below(a[1..], b[1..]))
  }

  predicate AtMost(a: string, b: string) {
    !Below(b, a)
  }

  lemma {:induction false} Trichotomy(a: string, b: string)
    ensures Below(a, b) || a == b || Below(b, a)
    ensures !(Below(a, b) && Below(b, a))
  {
    if a != "" && b != "" && a[0] == b[0] {
      Trichotomy(a[1..], b[1..]);
      assert a == [a[0]] + a[1..] && b == [b[0]] + b[1..];
    }
  }

  /** What the order means: a proper prefix is below, and otherwise the smaller character at
      the first place where two strings differ decides. */
  lemma {:induction false} PrefixIsBelow(a: string, b: string)
    requires a < b
    ensures Below(a, b)
  {
    if a != "" {
      assert a[0] == b[0];
      PrefixIsBelow(a[1..], b[1..]);
    }
  }

  lemma {:induction false} FirstDifferenceDecides(a: string, b: string, i: nat)
    requires i < |a| && i < |b| && a[..i] == b[..i] && a[i] != b[i]
    ensures Below(a, b) <==> a[i] < b[i]
  {
    if i > 0 {
      assert a[..i][0] == b[..i][0];
      assert a[1..][..i - 1] == a[..i][1..] && b[1..][..i - 1] == b[..i][1..];
      FirstDifferenceDecides(a[1..], b[1..], i - 1);
    }
  }

  lemma Irreflexive(a: string)
    ensures !Below(a, a)
  {
    Trichotomy(a, a);
  }

  lemma {:induction false} BelowTransitive(a: string, b: string, c: string)
    requires Below(a, b) && Below(b, c)
    ensures Below(a, c)
  {
    if a != "" && a[0] == b[0] && b[0] == c[0] {
      BelowTransitive(a[1..], b[1..], c[1..]);
    }
  }

  lemma AtMostTransitive(a: string, b: string, c: string)
    requires AtMost(a, b) && AtMost(b, c)
    ensures AtMost(a, c)
  {
    Trichotomy(a, b);
    Trichotomy(b, c);
    if Below(c, a) {
      if a == b || b == c {
      } else {
        BelowTransitive(a, b, c);
        Trichotomy(a, c);
      }
    }
  }

  // ------------------------------------------------------------------------ sorting

  ghost predicate TotalPreorder<T(!new)>(le: (T, T) -> bool) {
    && (forall x, y :: le(x, y) || le(y, x))
    && (forall x, y, z :: le(x, y) && le(y, z) ==> le(x, z))
  }

  ghost predicate Ordered<T>(xs: seq<T>, le: (T, T) -> bool) {
    forall i, j :: 0 <= i < j < |xs| ==> le(xs[i], xs[j])
  }

  lemma PrependKeepsOrder<T(!new)>(y: T, rest: seq<T>, x: T, tail: seq<T>, le: (T, T) -> bool)
    requires Ordered(rest, le) && multiset(rest) == multiset{x} + multiset(tail)
    requires le(y, x) && forall k :: 0 <= k < |tail| ==> le(y, tail[k])
    ensures Ordered([y] + rest, le)
  {
    var r := [y] + rest;
    forall i, j | 0 <= i < j < |r| ensures le(r[i], r[j]) {
      if i == 0 {
        assert rest[j - 1] in multiset(rest);
        assert rest[j - 1] == x || rest[j - 1] in tail;
      }
    }
  }

  function Insert<T(!new)>(x: T, ys: seq<T>, le: (T, T) -> bool): (r: seq<T>)
    requires TotalPreorder(le) && Ordered(ys, le)
    ensures Ordered(r, le) && multiset(r) == multiset{x} + multiset(ys)
  {
    if ys == [] then [x]
    else if le(x, ys[0]) then [x] + ys
    else
      assert ys == [ys[0]] + ys[1..];
      var rest := Insert(x, ys[1..], le);
      PrependKeepsOrder(ys[0], rest, x, ys[1..], le);
      [ys[0]] + rest
  }

  function Sort<T(!new)>(xs: seq<T>, le: (T, T) -> bool): (r: seq<T>)
    requires TotalPreorder(le)
    ensures Ordered(r, le) && multiset(r) == multiset(xs)
  {
    if xs == [] then []
    else
      assert xs == [xs[0]] + xs[1..];
      Insert(xs[0], Sort(xs[1..], le), le)
  }

  /** The elements a condition picks, in their order. */
  function Chosen<T>(xs: seq<T>, c: T -> bool): seq<T> {
    if xs == [] then [] else (if c(xs[0]) then [xs[0]] else []) + Chosen(xs[1..], c)
  }

  /** Elements that the order does not tell apart. */
  ghost predicate Alike<T(!new)>(c: T -> bool, le: (T, T) -> bool) {
    forall x, y :: c(x) && c(y) ==> le(x, y)
  }

  lemma ChosenOfFirst<T>(x: T, ys: seq<T>, c: T -> bool)
    ensures Chosen([x] + ys, c) == (if c(x) then [x] else []) + Chosen(ys, c)
  {
    assert ([x] + ys)[1..] == ys;
  }

  lemma {:induction false} InsertIsStable<T(!new)>(x: T, ys: seq<T>, le: (T, T) -> bool, c: T -> bool)
    requires TotalPreorder(le) && Ordered(ys, le) && Alike(c, le)
    ensures Chosen(Insert(x, ys, le), c) == (if c(x) then [x] else []) + Chosen(ys, c)
  {
    ChosenOfFirst(x, ys, c);
    if ys == [] {
      assert [x] + ys == [x];
    } else if !le(x, ys[0]) {
      var rest := Insert(x, ys[1..], le);
      InsertIsStable(x, ys[1..], le, c);
      ChosenOfFirst(ys[0], rest, c);
      ChosenOfFirst(ys[0], ys[1..], c);
      assert ys == [ys[0]] + ys[1..];
      assert !(c(x) && c(ys[0]));
    }
  }

  /** Sorting keeps elements that compare alike in their order. */
  lemma {:induction false} SortIsStable<T(!new)>(xs: seq<T>, le: (T, T) -> bool, c: T -> bool)
    requires TotalPreorder(le) && Alike(c, le)
    ensures Chosen(Sort(xs, le), c) == Chosen(xs, c)
  {
    if xs != [] {
      SortIsStable(xs[1..], le, c);
      InsertIsStable(xs[0], Sort(xs[1..], le), le, c);
    }
  }

  lemma TwoPlaces<T>(xs: seq<T>, i: int, j: int)
    requires 0 <= i < j < |xs| && xs[i] == xs[j]
    ensures multiset(xs)[xs[i]] >= 2
  {
    assert xs == xs[..j] + xs[j..];
    assert xs[i] in xs[..j] && xs[j] in xs[j..];
  }

  lemma AtMostIsTotal()
    ensures TotalPreorder(AtMost)
  {
    forall a, b ensures AtMost(a, b) || AtMost(b, a) { Trichotomy(a, b); }
    forall a, b, c | AtMost(a, b) && AtMost(b, c) ensures AtMost(a, c) { AtMostTransitive(a, b, c); }
  }

  /** sort.Strings on a copy. */
  function SortStrings(xs: seq<string>): (r: seq<string>)
    ensures Ordered(r, AtMost) && multiset(r) == multiset(xs)
  {
    AtMostIsTotal();
    Sort(xs, AtMost)
  }

  lemma SameFirst<T(!new)>(xs: seq<T>, ys: seq<T>, le: (T, T) -> bool)
    requires forall x, y :: le(x, y) && le(y, x) ==> x == y
    requires Ordered(xs, le) && Ordered(ys, le) && xs != [] && ys != []
    requires xs[0] in ys && ys[0] in xs
    ensures xs[0] == ys[0]
  {
    var i :| 0 <= i < |ys| && ys[i] == xs[0];
    var j :| 0 <= j < |xs| && xs[j] == ys[0];
    if i > 0 && j > 0 {
      assert le(ys[0], xs[0]) && le(xs[0], ys[0]);
    }
  }

  lemma SameBag<T>(xs: seq<T>, ys: seq<T>)
    requires multiset(xs) == multiset(ys)
    ensures |xs| == |ys|
    ensures xs != [] ==> xs[0] in ys && ys[0] in xs
  {
    assert |multiset(xs)| == |multiset(ys)|;
    if xs != [] { assert xs[0] in multiset(ys) && ys[0] in multiset(xs); }
  }

  /** Under an order that tells elements apart, a sorted list is determined by what it contains. */
  lemma {:induction false} OrderedIsUnique<T(!new)>(xs: seq<T>, ys: seq<T>, le: (T, T) -> bool)
    requires forall x, y :: le(x, y) && le(y, x) ==> x == y
    requires Ordered(xs, le) && Ordered(ys, le) && multiset(xs) == multiset(ys)
    ensures xs == ys
  {
    SameBag(xs, ys);
    if xs != [] {
      SameFirst(xs, ys, le);
      TailBag(xs);
      TailBag(ys);
      OrderedIsUnique(xs[1..], ys[1..], le);
      assert xs == [xs[0]] + xs[1..] && ys == [ys[0]] + ys[1..];
    }
  }

  lemma TailBag<T>(xs: seq<T>)
    requires xs != []
    ensures multiset(xs[1..]) == multiset(xs) - multiset{xs[0]}
  {
    assert xs == [xs[0]] + xs[1..];
  }

  lemma SortedIsUnique(xs: seq<string>, ys: seq<string>)
    requires Ordered(xs, AtMost) && Ordered(ys, AtMost) && multiset(xs) == multiset(ys)
    ensures xs == ys
  {
    forall x, y | AtMost(x, y) && AtMost(y, x) ensures x == y { Trichotomy(x, y); }
    OrderedIsUnique(xs, ys, AtMost);
  }

  ghost predicate Strict<T(!new)>(lt: (T, T) -> bool) {
    forall x, y :: !(lt(x, y) && lt(y, x))
  }

  /** A strictly increasing list is determined by its elements. */
  lemma {:induction false} StrictlyOrderedIsUnique<T(!new)>(xs: seq<T>, ys: seq<T>, lt: (T, T) -> bool)
    requires Strict(lt) && Ordered(xs, lt) && Ordered(ys, lt)
    requires forall x :: x in xs <==> x in ys
    ensures xs == ys
  {
    assert xs != [] ==> xs[0] in ys;
    assert ys != [] ==> ys[0] in xs;
    if xs != [] {
      var i :| 0 <= i < |ys| && ys[i] == xs[0];
      var j :| 0 <= j < |xs| && xs[j] == ys[0];
      assert xs[0] == ys[0];
      RestOf(xs, lt);
      RestOf(ys, lt);
      StrictlyOrderedIsUnique(xs[1..], ys[1..], lt);
      assert xs == [xs[0]] + xs[1..] && ys == [ys[0]] + ys[1..];
    }
  }

  lemma RestOf<T(!new)>(xs: seq<T>, lt: (T, T) -> bool)
    requires xs != [] && Strict(lt) && Ordered(xs, lt)
    ensures Ordered(xs[1..], lt)
    ensures forall x :: x in xs[1..] <==> x in xs && x != xs[0]
  {
    assert xs == [xs[0]] + xs[1..];
    forall k | 1 <= k < |xs| ensures xs[k] != xs[0] {
      assert lt(xs[0], xs[k]);
    }
  }
}
