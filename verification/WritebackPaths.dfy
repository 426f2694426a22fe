/**
 Writeback paths: the normaliser that replaces "//" by "/" until none is left, and the
 mapping from local relative paths to remote paths built on it.
 */
module WritebackPaths {

  /** Unicode white space, as strings.TrimSpace removes it. */
  predicate IsSpace(c: char) {
    || c in {'\t', '\n', '\U{000B}', '\U{000C}', '\r', ' ', '\U{0085}', '\U{00A0}', '\U{1680}',
             '\U{2028}', '\U{2029}', '\U{202F}', '\U{205F}', '\U{3000}'}
    || '\U{2000}' <= c <= '\U{200A}'
  }

  predicate IsSlash(c: char) {
    c == '/'
  }

  function TrimLeft(s: string, p: char -> bool): (r: string)
    ensures r == "" || !p(r[0])
    ensures |r| <= |s| && forall c :: c in r ==> c in s
  {
    if s == "" || !p(s[0]) then s else TrimLeft(s[1..], p)
  }

  function TrimRight(s: string, p: char -> bool): (r: string)
    ensures r == "" || !p(r[|r| - 1])
    ensures |r| <= |s| && forall i :: 0 <= i < |r| ==> r[i] == s[i]
    ensures forall i :: |r| <= i < |s| ==> p(s[i])
  {
    if s == "" || !p(s[|s| - 1]) then s else TrimRight(s[..|s| - 1], p)
  }

  /** Trimming on the left drops characters of the class only, and all of them in front. */
  lemma {:induction false} TrimLeftDrops(s: string, p: char -> bool) returns (k: nat)
    ensures k <= |s| && TrimLeft(s, p) == s[k..] && forall i :: 0 <= i < k ==> p(s[i])
  {
    if s == "" || !p(s[0]) {
      k := 0;
      assert s[0..] == s;
    } else {
      k := TrimLeftDrops(s[1..], p);
      assert s[1..][k..] == s[k + 1..];
      k := k + 1;
    }
  }

  function TrimSpace(s: string): string {
    TrimRight(TrimLeft(s, IsSpace), IsSpace)
  }

  function DefaultIfBlank(value: string, fallback: string): string {
    if TrimSpace(value) == "" then fallback else value
  }

  function TrimSlashes(s: string): string {
    TrimRight(TrimLeft(s, IsSlash), IsSlash)
  }

  /** Every backslash turned into a slash. */
  function Slashed(s: string): (r: string)
    ensures |r| == |s| && '\\' !in r
    ensures forall i :: 0 <= i < |s| ==> r[i] == if s[i] == '\\' then '/' else s[i]
  {
    seq(|s|, i requires 0 <= i < |s| => if s[i] == '\\' then '/' else s[i])
  }

  /** strings.Contains(s, "//") */
  predicate HasPair(s: string) {
    exists i, j :: 0 <= i < |s| && 0 <= j < |s| && j == i + 1 && s[i] == '/' && s[j] == '/'
  }

  /** strings.ReplaceAll(s, "//", "/"): left to right, pairs that do not overlap. */
  function ReplacePairs(s: string): (r: string)
    ensures |r| <= |s|
  {
    if |s| < 2 then s
    else if s[0] == '/' && s[1] == '/' then "/" + ReplacePairs(s[2..])
    else [s[0]] + ReplacePairs(s[1..])
  }

  // ------------------------------------------------------------------- specification

  /** One pass that keeps a single slash of every run. */
  function Collapse(s: string): string {
    if |s| < 2 then s
    else if s[0] == '/' && s[1] == '/' then Collapse(s[1..])
    else [s[0]] + Collapse(s[1..])
  }

  /** The normal form: slashes only, trimmed, absolute, every run of slashes collapsed. */
  function Normal(path: string): string {
    var t := TrimSpace(Slashed(path));
    if t == "" then "" else Collapse(if t[0] == '/' then t else "/" + t)
  }

  // ------------------------------------------------------------- replacing collapses

  lemma PairAtHead(s: string)
    requires |s| >= 2
    ensures HasPair(s) <==> (s[0] == '/' && s[1] == '/') || HasPair(s[1..])
  {
    var t := s[1..];
    if i, j :| 0 <= i < j < |t| && j == i + 1 && t[i] == '/' && t[j] == '/' {
      assert s[i + 1] == '/' && s[j + 1] == '/';
    }
    if i, j :| 0 < i < j < |s| && j == i + 1 && s[i] == '/' && s[j] == '/' {
      assert t[i - 1] == '/' && t[j - 1] == '/';
    }
  }

  lemma {:induction false} CollapseEnds(s: string)
    requires s != ""
    ensures Collapse(s) != "" && Collapse(s)[0] == s[0] && Collapse(s)[|Collapse(s)| - 1] == s[|s| - 1]
    decreases |s|
  {
    if |s| >= 2 { CollapseEnds(s[1..]); }
  }

  lemma {:induction false} CollapseHasNoPair(s: string)
    ensures !HasPair(Collapse(s))
    decreases |s|
  {
    if |s| >= 2 {
      CollapseHasNoPair(s[1..]);
      if !(s[0] == '/' && s[1] == '/') {
        CollapseEnds(s[1..]);
        var c := [s[0]] + Collapse(s[1..]);
        PairAtHead(c);
        assert c[1..] == Collapse(s[1..]);
      }
    }
  }

  lemma {:induction false} CollapseOfPairless(s: string)
    requires !HasPair(s)
    ensures Collapse(s) == s
    decreases |s|
  {
    if |s| >= 2 {
      PairAtHead(s);
      CollapseOfPairless(s[1..]);
      assert s == [s[0]] + s[1..];
    }
  }

  lemma {:induction false} CollapseAddsNothing(s: string, c: char)
    requires c !in s
    ensures c !in Collapse(s)
    decreases |s|
  {
    if |s| >= 2 { CollapseAddsNothing(s[1..], c); }
  }

  /** What is between the slashes. */
  function Letters(s: string): string {
    if s == "" then "" else (if s[0] == '/' then "" else [s[0]]) + Letters(s[1..])
  }

  /** Collapsing drops slashes only. */
  lemma {:induction false} CollapseKeepsLetters(s: string)
    ensures Letters(Collapse(s)) == Letters(s)
    decreases |s|
  {
    if |s| >= 2 {
      CollapseKeepsLetters(s[1..]);
      if !(s[0] == '/' && s[1] == '/') {
        var c := [s[0]] + Collapse(s[1..]);
        assert c[1..] == Collapse(s[1..]);
      }
    }
  }

  /** Collapsing after a slash only depends on the rest collapsed. */
  lemma CollapseAfterSlash(x: string)
    ensures Collapse("/" + x) == if x != "" && x[0] == '/' then Collapse(x) else "/" + Collapse(x)
  {
    assert ("/" + x)[1..] == x;
    if x == "" { assert "/" + x == "/"; }
  }

  lemma {:induction false} ReplaceShape(s: string)
    ensures s != "" ==> ReplacePairs(s) != "" && ReplacePairs(s)[0] == s[0]
    ensures HasPair(s) ==> |ReplacePairs(s)| < |s|
    decreases |s|
  {
    if |s| >= 2 {
      PairAtHead(s);
      if !(s[0] == '/' && s[1] == '/') { ReplaceShape(s[1..]); }
    }
  }

  /** One round of replacing pairs leaves the collapsed path the same. */
  lemma {:induction false} ReplaceKeepsCollapse(s: string)
    ensures Collapse(ReplacePairs(s)) == Collapse(s)
    decreases |s|
  {
    if |s| < 2 {
    } else if s[0] == '/' && s[1] == '/' {
      var t := s[2..];
      ReplaceKeepsCollapse(t);
      ReplaceShape(t);
      CollapseAfterSlash(t);
      CollapseAfterSlash(ReplacePairs(t));
      assert s[1..] == "/" + t;
    } else {
      var t := s[1..];
      ReplaceKeepsCollapse(t);
      ReplaceShape(t);
      if s[0] == '/' {
        assert s == "/" + t && ReplacePairs(s) == "/" + ReplacePairs(t);
        CollapseAfterSlash(t);
        CollapseAfterSlash(ReplacePairs(t));
      } else {
        var r := [s[0]] + ReplacePairs(t);
        assert r[1..] == ReplacePairs(t);
      }
    }
  }

  /** The normaliser's loop terminates, and computes the normal form. */
  method NormalizeWritebackListPath(path: string) returns (r: string)
    ensures r == Normal(path)
  {
    r := TrimSpace(Slashed(path));
    if r == "" {
      return;
    }
    if r[0] != '/' {
      r := "/" + r;
    }
    ghost var wanted := Collapse(r);
    while HasPair(r)
      invariant Collapse(r) == wanted
      decreases |r|
    {
      ReplaceShape(r);
      ReplaceKeepsCollapse(r);
      r := ReplacePairs(r);
    }
    CollapseOfPairless(r);
  }

  // ---------------------------------------------------------------------- properties

  /** Nothing left for the normaliser to do. */
  predicate Settled(s: string) {
    && s != "" && s[0] == '/' && !IsSpace(s[|s| - 1])
    && '\\' !in s && !HasPair(s)
  }

  lemma SlashedIsIdentity(s: string)
    requires '\\' !in s
    ensures Slashed(s) == s
  {
  }

  lemma SettledIsNormal(s: string)
    requires Settled(s)
    ensures Normal(s) == s
  {
    SlashedIsIdentity(s);
    CollapseOfPairless(s);
  }

  lemma TrimmedHasNo(s: string, c: char)
    requires c !in s
    ensures c !in TrimSpace(s)
  {
  }

  lemma AbsoluteIsSettled(t: string)
    requires t != "" && !IsSpace(t[|t| - 1]) && '\\' !in t
    ensures Settled(Collapse(if t[0] == '/' then t else "/" + t))
  {
    var u := if t[0] == '/' then t else "/" + t;
    assert u[|u| - 1] == t[|t| - 1] && '\\' !in u;
    CollapseEnds(u);
    CollapseHasNoPair(u);
    CollapseAddsNothing(u, '\\');
  }

  lemma NormalIsSettled(path: string)
    ensures Normal(path) == "" || Settled(Normal(path))
  {
    var t := TrimSpace(Slashed(path));
    if t != "" {
      TrimmedHasNo(Slashed(path), '\\');
      AbsoluteIsSettled(t);
    }
  }

  /** Normalising twice is normalising once. */
  lemma NormalIsIdempotent(path: string)
    ensures Normal(Normal(path)) == Normal(path)
  {
    NormalIsSettled(path);
    if Normal(path) != "" { SettledIsNormal(Normal(path)); }
  }

  // ----------------------------------------------------------------- local to remote

  function RemotePathForLocalRel(remoteRoot: string, rel: string): string {
    BelowRoot(Normal(remoteRoot), TrimSlashes(TrimSpace(rel)))
  }

  function BelowRoot(root: string, rel: string): string {
    if root == "" || root == "/" then
      if rel == "" then "/" else Normal(rel)
    else if rel == "" then root
    else Normal(TrimRight(root, IsSlash) + "/" + rel)
  }

  /** A relative path as a directory walk yields it on a sane tree. */
  predicate Clean(rel: string) {
    && '\\' !in rel && !HasPair(rel)
    && (rel != "" ==> !IsSpace(rel[0]) && !IsSpace(rel[|rel| - 1]) && rel[0] != '/' && rel[|rel| - 1] != '/')
  }

  lemma CleanUntrimmed(rel: string)
    requires Clean(rel)
    ensures TrimSlashes(TrimSpace(rel)) == rel
  {
  }

  /** Two settled pieces joined by one slash are settled. */
  lemma JoinIsSettled(base: string, rel: string)
    requires Clean(rel) && rel != "" && '\\' !in base && !HasPair(base)
    requires base != "" ==> base[0] == '/' && base[|base| - 1] != '/'
    ensures Settled(base + "/" + rel)
  {
    var s := base + "/" + rel;
    var n := |base|;
    forall i, j | 0 <= i < j < |s| && j == i + 1 ensures !(s[i] == '/' && s[j] == '/') {
      if j < n {
        assert s[i] == base[i] && s[j] == base[j];
      } else if i > n {
        assert s[i] == rel[i - n - 1] && s[j] == rel[j - n - 1];
      }
    }
  }

  /** The part of the remote path in front of a nonempty relative path. */
  function Base(root: string): string {
    if root == "" || root == "/" then "" else TrimRight(root, IsSlash)
  }

  lemma CleanBelowSlash(rel: string)
    requires Clean(rel) && rel != ""
    ensures Normal(rel) == "/" + rel
  {
    JoinIsSettled("", rel);
    assert "" + "/" + rel == "/" + rel;
    SlashedIsIdentity(rel);
    assert TrimSpace(rel) == rel;
    CollapseOfPairless("/" + rel);
  }

  lemma CleanBelowRoot(root: string, rel: string)
    requires Settled(root) && root != "/" && Clean(rel) && rel != ""
    ensures Normal(TrimRight(root, IsSlash) + "/" + rel) == TrimRight(root, IsSlash) + "/" + rel
  {
    BaseIsSettled(root);
    JoinIsSettled(TrimRight(root, IsSlash), rel);
    SettledIsNormal(TrimRight(root, IsSlash) + "/" + rel);
  }

  lemma BelowRootIsJoin(root: string, rel: string)
    requires rel != ""
    requires root == "" || root == "/" ==> Normal(rel) == "/" + rel
    requires root != "" && root != "/" ==> Normal(TrimRight(root, IsSlash) + "/" + rel) == TrimRight(root, IsSlash) + "/" + rel
    ensures BelowRoot(root, rel) == Base(root) + "/" + rel
  {
    assert "" + "/" == "/";
  }

  /** Below a root, a clean relative path is appended as it is. */
  lemma RemotePathIsJoin(remoteRoot: string, rel: string)
    requires Clean(rel) && rel != ""
    ensures RemotePathForLocalRel(remoteRoot, rel) == Base(Normal(remoteRoot)) + "/" + rel
  {
    CleanUntrimmed(rel);
    NormalIsSettled(remoteRoot);
    var root := Normal(remoteRoot);
    if root == "" || root == "/" {
      CleanBelowSlash(rel);
    } else {
      CleanBelowRoot(root, rel);
    }
    BelowRootIsJoin(root, rel);
  }

  lemma BaseIsSettled(root: string)
    requires Settled(root) && root != "/"
    ensures var base := TrimRight(root, IsSlash);
            base != "" && base[0] == '/' && base[|base| - 1] != '/' && '\\' !in base && !HasPair(base)
  {
    var base := TrimRight(root, IsSlash);
    TrimmedAtMostOnce(root);
    assert "" + "/" == "/";
    forall i, j | 0 <= i < j < |base| && j == i + 1 ensures !(base[i] == '/' && base[j] == '/') {
      assert base[i] == root[i] && base[j] == root[j];
    }
  }

  lemma TrimmedPair(root: string)
    ensures |root| <= |TrimRight(root, IsSlash)| + 1 || HasPair(root)
  {
    var n := |TrimRight(root, IsSlash)|;
    if |root| > n + 1 {
      assert root[n] == '/' && root[n + 1] == '/';
    }
  }

  lemma TrimmedAtMostOnce(root: string)
    requires !HasPair(root)
    ensures root == TrimRight(root, IsSlash) || root == TrimRight(root, IsSlash) + "/"
  {
    TrimmedPair(root);
    var n := |TrimRight(root, IsSlash)|;
    assert root == root[..n] + root[n..] && root[..n] == TrimRight(root, IsSlash);
    if |root| == n + 1 {
      assert root[n..] == [root[n]];
    } else {
      assert root[n..] == "";
    }
  }

  lemma NothingBelowRoot(root: string)
    requires !HasPair(root)
    ensures BelowRoot(root, "") == Base(root) || BelowRoot(root, "") == Base(root) + "/"
  {
    TrimmedAtMostOnce(root);
    assert "" + "/" == "/";
  }

  lemma RootHasNoPair(remoteRoot: string)
    ensures !HasPair(Normal(remoteRoot))
  {
    NormalIsSettled(remoteRoot);
  }

  lemma RootPathIsBase(remoteRoot: string)
    ensures var base := Base(Normal(remoteRoot));
            RemotePathForLocalRel(remoteRoot, "") == base || RemotePathForLocalRel(remoteRoot, "") == base + "/"
  {
    assert TrimSlashes(TrimSpace("")) == "";
    RootHasNoPair(remoteRoot);
    NothingBelowRoot(Normal(remoteRoot));
  }

  /** The root itself maps to its normal form, or to the slash if that is empty. */
  lemma RemoteRoot(remoteRoot: string)
    ensures RemotePathForLocalRel(remoteRoot, "") == if Normal(remoteRoot) == "" then "/" else Normal(remoteRoot)
  {
    assert TrimSlashes(TrimSpace("")) == "";
  }

  /** Below a root, a file is told apart from the root and from every other file. */
  lemma JoinsDiffer(base: string, remote: string -> string, a: string, b: string)
    requires remote("") == base || remote("") == base + "/"
    requires a != "" ==> remote(a) == base + "/" + a
    requires b != "" ==> remote(b) == base + "/" + b
    requires a != b
    ensures remote(a) != remote(b)
  {
    var prefix := base + "/";
    if a != "" && b != "" {
      assert (prefix + a)[|prefix|..] == a && (prefix + b)[|prefix|..] == b;
    } else {
      assert |prefix + a| == |prefix| + |a| && |prefix + b| == |prefix| + |b|;
    }
  }

  /** The paths a walk assigns below a root. */
  function RemotePaths(remoteRoot: string): string -> string {
    rel => RemotePathForLocalRel(remoteRoot, rel)
  }

  /** For a fixed root, different local files have different remote paths. */
  lemma RemotePathIsInjective(remoteRoot: string, a: string, b: string)
    requires Clean(a) && Clean(b) && a != b
    ensures RemotePaths(remoteRoot)(a) != RemotePaths(remoteRoot)(b)
  {
    RootPathIsBase(remoteRoot);
    if a != "" { RemotePathIsJoin(remoteRoot, a); }
    if b != "" { RemotePathIsJoin(remoteRoot, b); }
    JoinsDiffer(Base(Normal(remoteRoot)), RemotePaths(remoteRoot), a, b);
  }
}
