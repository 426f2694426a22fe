/**
 The pending writeback list: what the mount state tracks compared with what a walk of the
 local tree finds. Go iterates over its maps in no fixed order, so the loops below take
 any remaining key, and the contracts hold for every such order.
 */
module WritebackPending {
  import opened Common
  import opened WritebackPaths
  import opened Sorting

  datatype Tracked = Tracked(revision: string, hash: string, dirty: bool,
                             denied: bool, writeDenied: bool, readOnly: bool)

  datatype Item = Item(id: string, workspace: string, path: string, revision: string,
                       correlation: string, state: string, provider: string)

  /** A regular file outside the reserved directories, as the walk of the tree meets it. */
  datatype File = File(rel: string, hash: string)

  /** The mount state file: not there, there but not usable, or decoded. */
  datatype MountState = Absent | Unreadable | Loaded(files: map<string, Tracked>)

  function UpToSlash(s: string): (r: string)
    ensures '/' !in r && |r| <= |s| && r == s[..|r|]
    ensures |r| < |s| ==> s[|r|] == '/'
  {
    if s == "" || s[0] == '/' then "" else [s[0]] + UpToSlash(s[1..])
  }

  function ProviderFromPath(path: string): string {
    UpToSlash(if path != "" && path[0] == '/' then path[1..] else path)
  }

  /** The provider is the first segment of the path. */
  lemma ProviderIsFirstSegment(provider: string, rest: string)
    requires '/' !in provider
    ensures ProviderFromPath("/" + provider + "/" + rest) == provider
    ensures ProviderFromPath("/" + provider) == provider
  {
    assert ("/" + provider + "/" + rest)[1..] == provider + "/" + rest;
    assert ("/" + provider)[1..] == provider;
    UpToSlashIs(provider, "/" + rest);
    UpToSlashIs(provider, "");
    assert provider + ("/" + rest) == provider + "/" + rest && provider + "" == provider;
  }

  lemma {:induction false} UpToSlashIs(front: string, back: string)
    requires '/' !in front && (back == "" || back[0] == '/')
    ensures UpToSlash(front + back) == front
  {
    if front == "" {
      assert front + back == back;
    } else {
      assert (front + back)[1..] == front[1..] + back;
      UpToSlashIs(front[1..], back);
    }
  }

  function TrackedItem(workspace: string, raw: string, revision: string): Item {
    var path := Normal(raw);
    Item(DefaultIfBlank(path, raw), workspace, path, TrimSpace(revision),
         DefaultIfBlank(path, raw), "pending", ProviderFromPath(path))
  }

  function LocalItem(workspace: string, path: string): Item {
    Item(path, workspace, path, "", path, "pending", ProviderFromPath(path))
  }

  // ------------------------------------------------------------------- specification

  /** A tracked file waits to be written back. */
  predicate Waits(raw: string, t: Tracked, local: map<string, string>) {
    && !t.readOnly
    && (t.dirty
        || (&& !t.denied && !t.writeDenied && t.hash != ""
            && (Normal(raw) in local ==> local[Normal(raw)] != t.hash)))
  }

  /** The item of every waiting tracked key. */
  ghost function Waiting(workspace: string, files: map<string, Tracked>, local: map<string, string>): map<string, Item> {
    map raw | raw in files && Waits(raw, files[raw], local) :: TrackedItem(workspace, raw, files[raw].revision)
  }

  ghost function NormalForms(raws: set<string>): set<string> {
    set raw | raw in raws :: Normal(raw)
  }

  ghost function Untracked(files: map<string, Tracked>, local: map<string, string>): set<string> {
    local.Keys - NormalForms(files.Keys)
  }

  ghost function LocalItems(workspace: string, paths: set<string>): set<Item> {
    set path | path in paths :: LocalItem(workspace, path)
  }

  /** The keys behind an item. */
  ghost function Sources(made: map<string, Item>, item: Item): set<string> {
    set raw | raw in made && made[raw] == item
  }

  /** Every item as often as there are keys behind it, and once more if it is one of the others. */
  ghost predicate Holds(made: map<string, Item>, others: set<Item>, items: multiset<Item>) {
    forall item :: items[item] == |Sources(made, item)| + (if item in others then 1 else 0)
  }

  ghost predicate PendingList(workspace: string, files: map<string, Tracked>,
                              local: map<string, string>, items: seq<Item>)
  {
    && Ordered(items, ItemAtMost)
    && Holds(Waiting(workspace, files, local), LocalItems(workspace, Untracked(files, local)), multiset(items))
  }

  // --------------------------------------------------------------------------- order

  predicate ItemAtMost(a: Item, b: Item) {
    if a.id == b.id then AtMost(a.path, b.path) else AtMost(a.id, b.id)
  }

  lemma ItemAtMostIsTotal()
    ensures TotalPreorder(ItemAtMost)
  {
    AtMostIsTotal();
    forall a, b, c | ItemAtMost(a, b) && ItemAtMost(b, c) ensures ItemAtMost(a, c) {
      ItemAtMostTransitive(a, b, c);
    }
  }

  lemma ItemAtMostTransitive(a: Item, b: Item, c: Item)
    requires ItemAtMost(a, b) && ItemAtMost(b, c)
    ensures ItemAtMost(a, c)
  {
    if a.id == b.id == c.id {
      AtMostTransitive(a.path, b.path, c.path);
    } else if a.id == c.id {
      Trichotomy(a.id, b.id);
    } else {
      Irreflexive(b.id);
      AtMostTransitive(a.id, b.id, c.id);
    }
  }

  // ----------------------------------------------------------------------- the loops

  lemma OneMoreKey(made: map<string, Item>, raw: string, added: Item, items: multiset<Item>)
    requires raw !in made && Holds(made, {}, items)
    ensures Holds(made[raw := added], {}, items + multiset{added})
  {
    forall item
      ensures |Sources(made[raw := added], item)| == |Sources(made, item)| + (if item == added then 1 else 0)
    {
      if item == added {
        assert Sources(made[raw := added], item) == Sources(made, item) + {raw};
      } else {
        assert Sources(made[raw := added], item) == Sources(made, item);
      }
    }
  }

  lemma OneMorePath(workspace: string, made: map<string, Item>, paths: set<string>, path: string,
                    items: multiset<Item>)
    requires path !in paths && Holds(made, LocalItems(workspace, paths), items)
    ensures Holds(made, LocalItems(workspace, paths + {path}), items + multiset{LocalItem(workspace, path)})
  {
    var added := LocalItem(workspace, path);
    assert LocalItems(workspace, paths + {path}) == LocalItems(workspace, paths) + {added};
    assert added !in LocalItems(workspace, paths);
  }

  lemma NothingCovered(wanted: map<string, Item>, left: set<string>)
    requires wanted.Keys <= left
    ensures Holds(wanted - left, {}, multiset{})
    ensures wanted - {} == wanted
  {
    assert wanted - left == map[];
    assert forall item :: Sources(map[], item) == {};
  }

  lemma Uncover(wanted: map<string, Item>, left: set<string>, raw: string)
    requires raw in left
    ensures wanted - (left - {raw}) == if raw in wanted then (wanted - left)[raw := wanted[raw]] else wanted - left
  {
  }

  lemma OneMoreForm(raws: set<string>, raw: string)
    ensures NormalForms(raws + {raw}) == NormalForms(raws) + {Normal(raw)}
  {
  }

  lemma WaitingAt(workspace: string, files: map<string, Tracked>, local: map<string, string>, raw: string)
    requires raw in files
    ensures raw in Waiting(workspace, files, local) <==> Waits(raw, files[raw], local)
    ensures raw in Waiting(workspace, files, local) ==>
              Waiting(workspace, files, local)[raw] == TrackedItem(workspace, raw, files[raw].revision)
  {
  }

  /** One round of the first loop: an item if the file is dirty, or allowed and out of step with the disk. */
  method VisitTracked(workspace: string, raw: string, tracked: Tracked, local: map<string, string>)
    returns (path: string, item: Option<Item>)
    ensures path == Normal(raw)
    ensures item.Some? <==> Waits(raw, tracked, local)
    ensures item.Some? ==> item.value == TrackedItem(workspace, raw, tracked.revision)
  {
    path := NormalizeWritebackListPath(raw);
    item := None;
    if tracked.readOnly {
      return;
    }
    var pending := tracked.dirty;
    if !pending && !tracked.denied && !tracked.writeDenied {
      if path in local && tracked.hash != "" && local[path] != tracked.hash {
        pending := true;
      } else if path !in local && tracked.hash != "" {
        pending := true;
      }
    }
    if pending {
      var id := if TrimSpace(path) == "" then raw else path;
      item := Some(Item(id, workspace, path, TrimSpace(tracked.revision), id, "pending", ProviderFromPath(path)));
    }
  }

  lemma CollectStep(workspace: string, files: map<string, Tracked>, local: map<string, string>,
                    left: set<string>, raw: string, item: Option<Item>, items: seq<Item>)
    requires raw in left && left <= files.Keys
    requires item.Some? <==> Waits(raw, files[raw], local)
    requires item.Some? ==> item.value == TrackedItem(workspace, raw, files[raw].revision)
    requires Holds(Waiting(workspace, files, local) - left, {}, multiset(items))
    ensures Holds(Waiting(workspace, files, local) - (left - {raw}), {},
                  multiset(items + if item.Some? then [item.value] else []))
    ensures NormalForms(files.Keys - (left - {raw})) == NormalForms(files.Keys - left) + {Normal(raw)}
  {
    WaitingAt(workspace, files, local, raw);
    Uncover(Waiting(workspace, files, local), left, raw);
    if item.Some? {
      OneMoreKey(Waiting(workspace, files, local) - left, raw, item.value, multiset(items));
    } else {
      assert items + [] == items;
    }
    OneMoreForm(files.Keys - left, raw);
    assert files.Keys - left + {raw} == files.Keys - (left - {raw});
  }

  /** The first loop: the normal forms seen, and an item for every waiting tracked file. */
  method CollectTracked(workspace: string, files: map<string, Tracked>, local: map<string, string>)
    returns (items: seq<Item>, seen: set<string>)
    ensures seen == NormalForms(files.Keys)
    ensures Holds(Waiting(workspace, files, local), {}, multiset(items))
  {
    items, seen := [], {};
    var left := files.Keys;
    NothingCovered(Waiting(workspace, files, local), left);
    while left != {}
      invariant left <= files.Keys
      invariant seen == NormalForms(files.Keys - left)
      invariant Holds(Waiting(workspace, files, local) - left, {}, multiset(items))
      decreases |left|
    {
      var raw :| raw in left;
      var path, item := VisitTracked(workspace, raw, files[raw], local);
      CollectStep(workspace, files, local, left, raw, item, items);
      left := left - {raw};
      seen := seen + {path};
      items := items + if item.Some? then [item.value] else [];
    }
    assert files.Keys - left == files.Keys;
  }

  /** The second loop: an item for every local path not seen. */
  method CollectUntracked(workspace: string, local: map<string, string>, seen: set<string>, before: seq<Item>,
                          ghost made: map<string, Item>)
    returns (items: seq<Item>)
    requires Holds(made, {}, multiset(before))
    ensures Holds(made, LocalItems(workspace, local.Keys - seen), multiset(items))
  {
    items := before;
    var left := local.Keys;
    ghost var paths: set<string> := {};
    while left != {}
      invariant left <= local.Keys
      invariant paths == local.Keys - seen - left
      invariant Holds(made, LocalItems(workspace, paths), multiset(items))
      decreases |left|
    {
      var path :| path in left;
      left := left - {path};
      if path !in seen {
        OneMorePath(workspace, made, paths, path, multiset(items));
        paths := paths + {path};
        items := items + [Item(path, workspace, path, "", path, "pending", ProviderFromPath(path))];
      }
    }
  }

  /** For any tracked state and any local tree, the list is sorted and holds exactly what is pending. */
  method PendingItems(workspace: string, files: map<string, Tracked>, local: map<string, string>)
    returns (items: seq<Item>)
    ensures PendingList(workspace, files, local, items)
  {
    var found, seen := CollectTracked(workspace, files, local);
    items := CollectUntracked(workspace, local, seen, found, Waiting(workspace, files, local));
    ItemAtMostIsTotal();
    items := Sort(items, ItemAtMost);
  }

  /** The local tree keyed by remote path: of two files that map to one path the later wins. */
  method LocalWritebackHashes(remote: string -> string, walk: seq<File>) returns (hashes: map<string, string>)
    ensures hashes == HashesOf(remote, walk)
  {
    hashes := map[];
    for i := 0 to |walk|
      invariant hashes == HashesOf(remote, walk[..i])
    {
      hashes := hashes[remote(walk[i].rel) := walk[i].hash];
      assert walk[..i + 1][..i] == walk[..i];
    }
    assert walk[..|walk|] == walk;
  }

  function HashesOf(remote: string -> string, walk: seq<File>): map<string, string> {
    if walk == [] then map[]
    else
      var last := walk[|walk| - 1];
      HashesOf(remote, walk[..|walk| - 1])[remote(last.rel) := last.hash]
  }

  /** The whole listing. A missing state file lists nothing, an unusable one or a failed walk fails. */
  method ReadPendingWritebackItems(workspace: string, state: MountState, remoteRoot: string,
                                   walk: Option<seq<File>>)
    returns (items: Option<seq<Item>>)
    ensures items.None? <==> state.Unreadable? || (state.Loaded? && walk.None?)
    ensures state.Absent? ==> items == Some([])
    ensures state.Loaded? && walk.Some? ==>
              PendingList(workspace, state.files, HashesOf(RemotePaths(remoteRoot), walk.value), items.value)
  {
    match state
    case Absent => return Some([]);
    case Unreadable => return None;
    case Loaded(files) =>
      match walk {
        case None => return None;
        case Some(found) =>
          var local := LocalWritebackHashes(RemotePaths(remoteRoot), found);
          var list := PendingItems(workspace, files, local);
          return Some(list);
      }
  }

  // -------------------------------------------------------------- lists that hold items

  ghost predicate OwnPath(made: map<string, Item>) {
    forall a, b :: a in made && b in made && a != b ==> made[a].path != made[b].path
  }

  ghost predicate Apart(made: map<string, Item>, others: set<Item>) {
    && (forall raw, item :: raw in made && item in others ==> made[raw].path != item.path)
    && (forall a, b :: a in others && b in others && a != b ==> a.path != b.path)
  }

  ghost predicate PathsDistinct(items: seq<Item>) {
    forall i, j :: 0 <= i < j < |items| ==> items[i].path != items[j].path
  }

  lemma HeldIff(made: map<string, Item>, others: set<Item>, items: seq<Item>, item: Item)
    requires Holds(made, others, multiset(items))
    ensures item in items <==> item in made.Values || item in others
  {
    var sources := Sources(made, item);
    assert item in items <==> multiset(items)[item] > 0;
    if item in made.Values {
      var raw :| raw in made && made[raw] == item;
      assert raw in sources;
    }
    if sources != {} {
      var raw :| raw in sources;
    }
  }

  lemma {:induction false} TwoPlacesFor<T>(xs: seq<T>, x: T) returns (i: int, j: int)
    requires multiset(xs)[x] >= 2
    ensures 0 <= i < j < |xs| && xs[i] == xs[j] == x
  {
    assert xs == [xs[0]] + xs[1..];
    if xs[0] == x {
      assert x in multiset(xs[1..]);
      var k :| 0 <= k < |xs[1..]| && xs[1..][k] == x;
      i, j := 0, k + 1;
    } else {
      i, j := TwoPlacesFor(xs[1..], x);
      i, j := i + 1, j + 1;
    }
  }

  /** One path, one item, listed once. */
  lemma SamePathSameItem(made: map<string, Item>, others: set<Item>, items: seq<Item>, a: Item, b: Item)
    requires Holds(made, others, multiset(items)) && Apart(made, others) && OwnPath(made)
    requires a in items && b in items && a.path == b.path
    ensures a == b && multiset(items)[a] == 1
  {
    HeldIff(made, others, items, a);
    HeldIff(made, others, items, b);
    var sources := Sources(made, a);
    if a in others {
      assert sources == {};
    } else {
      var raw :| raw in made && made[raw] == a;
      assert sources == {raw};
    }
  }

  lemma SharedPathListedTwice(made: map<string, Item>, others: set<Item>, items: seq<Item>)
    requires Holds(made, others, multiset(items)) && !OwnPath(made)
    ensures !PathsDistinct(items)
  {
    var a, b :| a in made && b in made && a != b && made[a].path == made[b].path;
    var x, y := made[a], made[b];
    var i, j;
    if x == y {
      var sources := Sources(made, x);
      assert sources == {a} + {b} + (sources - {a} - {b});
      i, j := TwoPlacesFor(items, x);
    } else {
      HeldIff(made, others, items, x);
      HeldIff(made, others, items, y);
      i :| 0 <= i < |items| && items[i] == x;
      j :| 0 <= j < |items| && items[j] == y;
    }
    assert items[i].path == items[j].path;
  }

  lemma HeldPathsDistinctIff(made: map<string, Item>, others: set<Item>, items: seq<Item>)
    requires Holds(made, others, multiset(items)) && Apart(made, others)
    ensures PathsDistinct(items) <==> OwnPath(made)
  {
    if OwnPath(made) {
      forall i, j | 0 <= i < j < |items| ensures items[i].path != items[j].path {
        if items[i].path == items[j].path {
          SamePathSameItem(made, others, items, items[i], items[j]);
          TwoPlaces(items, i, j);
        }
      }
    } else {
      SharedPathListedTwice(made, others, items);
    }
  }

  // ------------------------------------------------------------------ what it promises

  ghost predicate DistinctForms(raws: set<string>) {
    forall a, b :: a in raws && b in raws && a != b ==> Normal(a) != Normal(b)
  }

  /** An item is listed exactly when a waiting key or an untracked path asks for it. */
  lemma ListedIff(workspace: string, files: map<string, Tracked>, local: map<string, string>,
                  items: seq<Item>, item: Item)
    requires PendingList(workspace, files, local, items)
    ensures item in items <==> || item in Waiting(workspace, files, local).Values
                               || item in LocalItems(workspace, Untracked(files, local))
  {
    HeldIff(Waiting(workspace, files, local), LocalItems(workspace, Untracked(files, local)), items, item);
  }

  /** No path is listed twice exactly when no two waiting keys share a normal form. */
  lemma PathsDistinctIff(workspace: string, files: map<string, Tracked>, local: map<string, string>,
                         items: seq<Item>)
    requires PendingList(workspace, files, local, items)
    ensures PathsDistinct(items) <==> DistinctForms(Waiting(workspace, files, local).Keys)
  {
    HeldPathsDistinctIff(Waiting(workspace, files, local), LocalItems(workspace, Untracked(files, local)), items);
  }

  /** Tracked keys as the mount writes them: no two alike, none blank. */
  ghost predicate SoundKeys(files: map<string, Tracked>) {
    DistinctForms(files.Keys) && forall raw :: raw in files ==> Normal(raw) != ""
  }

  lemma NormalIsNotBlank(raw: string)
    ensures Normal(raw) == "" || TrimSpace(Normal(raw)) != ""
  {
    NormalIsSettled(raw);
  }

  /** When a tracked file is listed, case by case: a dirty writable one always; a read-only one
      never; a clean one that is denied, has no recorded hash or matches the disk never; any
      other, missing from the disk or differing from it, always. */
  lemma TrackedIsListedWhen(workspace: string, files: map<string, Tracked>, local: map<string, string>,
                            items: seq<Item>, raw: string)
    requires PendingList(workspace, files, local, items) && raw in files && DistinctForms(files.Keys)
    ensures var t := files[raw]; var path := Normal(raw);
            var listed := exists i :: 0 <= i < |items| && items[i].path == path;
            && (!t.readOnly && t.dirty ==> listed)
            && (t.readOnly ==> !listed)
            && (!t.dirty && (t.denied || t.writeDenied || t.hash == "") ==> !listed)
            && (!t.dirty && path in local && local[path] == t.hash ==> !listed)
            && (!t.readOnly && !t.denied && !t.writeDenied && t.hash != "" && path !in local ==> listed)
            && (!t.readOnly && !t.denied && !t.writeDenied && t.hash != "" && path in local && local[path] != t.hash ==> listed)
  {
    PendingPathsExact(workspace, files, local, items);
    var paths := set i | 0 <= i < |items| :: items[i].path;
    assert Normal(raw) in paths <==> exists i :: 0 <= i < |items| && items[i].path == Normal(raw);
    assert Normal(raw) !in Untracked(files, local);
    OnlyKeyOfItsForm(workspace, files, local, raw);
  }

  lemma OnlyKeyOfItsForm(workspace: string, files: map<string, Tracked>, local: map<string, string>, raw: string)
    requires raw in files && DistinctForms(files.Keys)
    ensures Normal(raw) in NormalForms(Waiting(workspace, files, local).Keys) <==> Waits(raw, files[raw], local)
  {
    WaitingAt(workspace, files, local, raw);
    if Normal(raw) in NormalForms(Waiting(workspace, files, local).Keys) {
      var other :| other in Waiting(workspace, files, local).Keys && Normal(other) == Normal(raw);
      assert other == raw;
    }
  }

  /** With sound keys an item is known by its path, and the list is strictly increasing in it. */
  lemma PendingPathsIncrease(workspace: string, files: map<string, Tracked>, local: map<string, string>,
                             items: seq<Item>)
    requires PendingList(workspace, files, local, items) && SoundKeys(files)
    ensures forall i :: 0 <= i < |items| ==> items[i].id == items[i].path
    ensures forall i, j :: 0 <= i < j < |items| ==> Below(items[i].path, items[j].path)
  {
    forall i | 0 <= i < |items| ensures items[i].id == items[i].path {
      ListedIff(workspace, files, local, items, items[i]);
      if raw :| raw in Waiting(workspace, files, local) && Waiting(workspace, files, local)[raw] == items[i] {
        NormalIsNotBlank(raw);
      }
    }
    PathsDistinctIff(workspace, files, local, items);
    forall i, j | 0 <= i < j < |items| ensures Below(items[i].path, items[j].path) {
      assert ItemAtMost(items[i], items[j]);
      Trichotomy(items[i].path, items[j].path);
    }
  }

  /** The paths listed are exactly the specified set. */
  lemma PendingPathsExact(workspace: string, files: map<string, Tracked>, local: map<string, string>,
                          items: seq<Item>)
    requires PendingList(workspace, files, local, items)
    ensures (set i | 0 <= i < |items| :: items[i].path)
         == NormalForms(Waiting(workspace, files, local).Keys) + Untracked(files, local)
  {
    var paths := set i | 0 <= i < |items| :: items[i].path;
    forall p | p in paths ensures p in NormalForms(Waiting(workspace, files, local).Keys) + Untracked(files, local) {
      var i :| 0 <= i < |items| && items[i].path == p;
      ListedIff(workspace, files, local, items, items[i]);
    }
    forall raw | raw in Waiting(workspace, files, local) ensures Normal(raw) in paths {
      ListedIff(workspace, files, local, items, TrackedItem(workspace, raw, files[raw].revision));
    }
    forall p | p in Untracked(files, local) ensures p in paths {
      ListedIff(workspace, files, local, items, LocalItem(workspace, p));
    }
  }

  predicate PathBelow(a: Item, b: Item) {
    Below(a.path, b.path)
  }

  lemma PathBelowIsStrict()
    ensures Strict(PathBelow)
  {
    forall a, b ensures !(PathBelow(a, b) && PathBelow(b, a)) { Trichotomy(a.path, b.path); }
  }

  /** With sound keys the listing does not depend on the order Go visits its maps in. */
  lemma PendingListIsUnique(workspace: string, files: map<string, Tracked>, local: map<string, string>,
                            one: seq<Item>, two: seq<Item>)
    requires PendingList(workspace, files, local, one) && PendingList(workspace, files, local, two)
    requires SoundKeys(files)
    ensures one == two
  {
    PendingPathsIncrease(workspace, files, local, one);
    PendingPathsIncrease(workspace, files, local, two);
    forall item ensures item in one <==> item in two {
      ListedIff(workspace, files, local, one, item);
      ListedIff(workspace, files, local, two, item);
    }
    PathBelowIsStrict();
    StrictlyOrderedIsUnique(one, two, PathBelow);
  }

  // ------------------------------------------------------------- down to the local tree

  /** Every file of a clean tree is found under its own remote path, with its own hash. */
  ghost predicate CleanTree(walk: seq<File>) {
    && (forall i :: 0 <= i < |walk| ==> Clean(walk[i].rel))
    && (forall i, j :: 0 <= i < j < |walk| ==> walk[i].rel != walk[j].rel)
  }

  lemma {:induction false} EveryFileIsFound(remote: string -> string, walk: seq<File>)
    requires forall i, j :: 0 <= i < j < |walk| ==> remote(walk[i].rel) != remote(walk[j].rel)
    ensures forall i :: 0 <= i < |walk| ==>
              && remote(walk[i].rel) in HashesOf(remote, walk)
              && HashesOf(remote, walk)[remote(walk[i].rel)] == walk[i].hash
  {
    if walk != [] {
      var n := |walk| - 1;
      EveryFileIsFound(remote, walk[..n]);
      forall i | 0 <= i < n
        ensures remote(walk[i].rel) in HashesOf(remote, walk[..n])
             && HashesOf(remote, walk[..n])[remote(walk[i].rel)] == walk[i].hash
      {
        assert walk[..n][i] == walk[i];
      }
    }
  }

  lemma {:induction false} EveryHashHasAFile(remote: string -> string, walk: seq<File>, path: string)
    requires path in HashesOf(remote, walk)
    ensures exists i :: 0 <= i < |walk| && remote(walk[i].rel) == path
                        && walk[i].hash == HashesOf(remote, walk)[path]
  {
    var n := |walk| - 1;
    if path != remote(walk[n].rel) {
      EveryHashHasAFile(remote, walk[..n], path);
      var i :| 0 <= i < n && remote(walk[..n][i].rel) == path
               && walk[..n][i].hash == HashesOf(remote, walk[..n])[path];
      assert walk[i] == walk[..n][i];
    }
  }

  lemma CleanTreeIsInjective(remoteRoot: string, walk: seq<File>)
    requires CleanTree(walk)
    ensures forall i, j :: 0 <= i < j < |walk| ==>
              RemotePaths(remoteRoot)(walk[i].rel) != RemotePaths(remoteRoot)(walk[j].rel)
  {
    forall i, j | 0 <= i < j < |walk|
      ensures RemotePaths(remoteRoot)(walk[i].rel) != RemotePaths(remoteRoot)(walk[j].rel)
    {
      RemotePathIsInjective(remoteRoot, walk[i].rel, walk[j].rel);
    }
  }

  /** A writable, allowed tracked file with a recorded hash. */
  predicate Settling(t: Tracked) {
    !t.readOnly && !t.denied && !t.writeDenied && t.hash != ""
  }

  /** Nothing listed: every such tracked file is on disk with the recorded hash, and every
      file on disk is tracked. */
  lemma EmptyListMeansInSync(workspace: string, files: map<string, Tracked>, remoteRoot: string, walk: seq<File>)
    requires PendingList(workspace, files, HashesOf(RemotePaths(remoteRoot), walk), []) && CleanTree(walk)
    ensures forall raw :: raw in files && Settling(files[raw]) ==>
              exists i :: 0 <= i < |walk| && RemotePaths(remoteRoot)(walk[i].rel) == Normal(raw)
                          && walk[i].hash == files[raw].hash
    ensures forall i :: 0 <= i < |walk| ==>
              RemotePaths(remoteRoot)(walk[i].rel) in NormalForms(files.Keys)
  {
    var local := HashesOf(RemotePaths(remoteRoot), walk);
    PendingPathsExact(workspace, files, local, []);
    forall raw | raw in files && Settling(files[raw])
      ensures exists i :: 0 <= i < |walk| && RemotePaths(remoteRoot)(walk[i].rel) == Normal(raw)
                          && walk[i].hash == files[raw].hash
    {
      assert Normal(raw) !in NormalForms(Waiting(workspace, files, local).Keys);
      assert raw !in Waiting(workspace, files, local);
      EveryHashHasAFile(RemotePaths(remoteRoot), walk, Normal(raw));
    }
    CleanTreeIsInjective(remoteRoot, walk);
    EveryFileIsFound(RemotePaths(remoteRoot), walk);
    forall i | 0 <= i < |walk|
      ensures RemotePaths(remoteRoot)(walk[i].rel) in NormalForms(files.Keys)
    {
      assert RemotePaths(remoteRoot)(walk[i].rel) !in Untracked(files, local);
    }
  }
}
