/**
 The integration handoff: the subscribable events of a provider, regrouped by the path
 globs they are delivered on.
 */
module IntegrationHandoff {
  import opened Sorting
  import opened WritebackPaths

  datatype Event = Event(name: string, support: string, reason: string, paths: seq<string>)

  datatype Handoff = Handoff(provider: string, resource: string, eventTypes: seq<string>)

  datatype Exclusion = Exclusion(event: string, support: string, reason: string)

  /** One resource delivering one event type. */
  datatype Delivery = Delivery(resource: string, event: string)

  /** Unicode simple folding onto a lower-case letter other than k. */
  predicate FoldsTo(c: char, low: char) {
    || c == low
    || c as int + 32 == low as int
    || (low == 's' && c == '\U{017F}')
  }

  predicate Subscribable(event: Event) {
    var s := TrimSpace(event.support);
    |s| == |"subscribable"| && forall i :: 0 <= i < |s| ==> FoldsTo(s[i], "subscribable"[i])
  }

  /** A letter in lower case; the long s is an s. */
  function Lower(c: char): char {
    if 'A' <= c <= 'Z' then c + ' ' else if c == '\U{017F}' then 's' else c
  }

  /** What the marking means: the trimmed support, in lower case, is the word itself. */
  lemma SubscribableIff(event: Event)
    ensures var t := TrimSpace(event.support);
            Subscribable(event) <==> seq(|t|, i requires 0 <= i < |t| => Lower(t[i])) == "subscribable"
  {
    var t := TrimSpace(event.support);
    var word := "subscribable";
    var low := seq(|t|, i requires 0 <= i < |t| => Lower(t[i]));
    forall i | 0 <= i < |t| && i < |word| ensures FoldsTo(t[i], word[i]) <==> low[i] == word[i] {
      FoldsToIffLower(t[i], word[i]);
    }
    if low == word {
      assert forall i :: 0 <= i < |t| ==> low[i] == word[i];
    }
  }

  lemma FoldsToIffLower(c: char, low: char)
    requires low in "abcdefghijlmnopqrstuvwxyz"
    ensures FoldsTo(c, low) <==> Lower(c) == low
  {
    LettersAreLower(low);
  }

  lemma LettersAreLower(low: char)
    requires low in "abcdefghijlmnopqrstuvwxyz"
    ensures 'a' <= low <= 'z'
  {
  }

  /** Where an event is delivered; the empty resource stands for a gap in the catalog. */
  function Delivered(event: Event): seq<string> {
    if event.paths == [] then [""] else event.paths
  }

  // ------------------------------------------------------------------- specification

  /** What the event list says, as a bag of deliveries. */
  ghost function EventDeliveries(paths: seq<string>, name: string): multiset<Delivery> {
    if paths == [] then multiset{}
    else EventDeliveries(paths[..|paths| - 1], name) + multiset{Delivery(paths[|paths| - 1], name)}
  }

  ghost function Share(event: Event): multiset<Delivery> {
    EventDeliveries(Delivered(event), event.name)
  }

  ghost function Deliveries(events: seq<Event>): multiset<Delivery> {
    if events == [] then multiset{}
    else
      Deliveries(events[..|events| - 1]) + Share(events[|events| - 1])
  }

  /** What the handoff says, as a bag of deliveries. */
  ghost function GroupDeliveries(resource: string, names: seq<string>): multiset<Delivery> {
    if names == [] then multiset{}
    else GroupDeliveries(resource, names[..|names| - 1]) + multiset{Delivery(resource, names[|names| - 1])}
  }

  ghost function Unfolded(handoff: seq<Handoff>): multiset<Delivery> {
    if handoff == [] then multiset{}
    else
      var last := handoff[|handoff| - 1];
      Unfolded(handoff[..|handoff| - 1]) + GroupDeliveries(last.resource, last.eventTypes)
  }

  ghost predicate ResourcesIncrease(handoff: seq<Handoff>) {
    forall i, j :: 0 <= i < j < |handoff| ==> Below(handoff[i].resource, handoff[j].resource)
  }

  ghost predicate GroupsInOrder(provider: string, handoff: seq<Handoff>) {
    forall i :: 0 <= i < |handoff| ==>
      && handoff[i].provider == provider
      && handoff[i].eventTypes != [] && Ordered(handoff[i].eventTypes, AtMost)
  }

  /** An exact regrouping: nothing lost, added or repeated, one sorted group per resource. */
  ghost predicate Transposes(provider: string, deliveries: multiset<Delivery>, handoff: seq<Handoff>) {
    && Unfolded(handoff) == deliveries
    && ResourcesIncrease(handoff) && GroupsInOrder(provider, handoff)
  }

  // ----------------------------------------------------------------- counting deliveries

  lemma {:induction false} GroupCount(resource: string, names: seq<string>, d: Delivery)
    ensures GroupDeliveries(resource, names)[d] == if d.resource == resource then multiset(names)[d.event] else 0
  {
    if names != [] {
      var n := |names| - 1;
      GroupCount(resource, names[..n], d);
      assert names == names[..n] + [names[n]];
    }
  }

  lemma {:induction false} EventCount(paths: seq<string>, name: string, d: Delivery)
    ensures EventDeliveries(paths, name)[d] == if d.event == name then multiset(paths)[d.resource] else 0
  {
    if paths != [] {
      var n := |paths| - 1;
      EventCount(paths[..n], name, d);
      assert paths == paths[..n] + [paths[n]];
    }
  }

  lemma {:induction false} UnfoldedElsewhere(handoff: seq<Handoff>, d: Delivery)
    requires forall i :: 0 <= i < |handoff| ==> handoff[i].resource != d.resource
    ensures Unfolded(handoff)[d] == 0
  {
    if handoff != [] {
      var n := |handoff| - 1;
      UnfoldedElsewhere(handoff[..n], d);
      GroupCount(handoff[n].resource, handoff[n].eventTypes, d);
    }
  }

  lemma {:induction false} UnfoldedAt(handoff: seq<Handoff>, k: nat, d: Delivery)
    requires k < |handoff| && handoff[k].resource == d.resource
    requires forall i, j :: 0 <= i < j < |handoff| ==> handoff[i].resource != handoff[j].resource
    ensures Unfolded(handoff)[d] == multiset(handoff[k].eventTypes)[d.event]
  {
    var n := |handoff| - 1;
    GroupCount(handoff[n].resource, handoff[n].eventTypes, d);
    if k == n {
      UnfoldedElsewhere(handoff[..n], d);
    } else {
      UnfoldedAt(handoff[..n], k, d);
    }
  }

  // ----------------------------------------------------------------------- the loops

  /** The groups built so far say what has been read of the events. */
  ghost predicate Groups(byResource: map<string, seq<string>>, deliveries: multiset<Delivery>) {
    && (forall r :: r in byResource ==> byResource[r] != [])
    && (forall d :: deliveries[d] == if d.resource in byResource then multiset(byResource[d.resource])[d.event] else 0)
  }

  function Add(byResource: map<string, seq<string>>, path: string, name: string): map<string, seq<string>> {
    byResource[path := (if path in byResource then byResource[path] else []) + [name]]
  }

  lemma AddKeepsGroups(byResource: map<string, seq<string>>, deliveries: multiset<Delivery>, path: string, name: string)
    requires Groups(byResource, deliveries)
    ensures Groups(Add(byResource, path, name), deliveries + multiset{Delivery(path, name)})
  {
  }

  method GroupByResource(events: seq<Event>) returns (byResource: map<string, seq<string>>)
    ensures Groups(byResource, Deliveries(events))
  {
    byResource := map[];
    for i := 0 to |events|
      invariant Groups(byResource, Deliveries(events[..i]))
    {
      var paths := Delivered(events[i]);
      ghost var before := Deliveries(events[..i]);
      assert before + EventDeliveries(paths[..0], events[i].name) == before;
      for k := 0 to |paths|
        invariant Groups(byResource, before + EventDeliveries(paths[..k], events[i].name))
      {
        AddKeepsGroups(byResource, before + EventDeliveries(paths[..k], events[i].name), paths[k], events[i].name);
        byResource := Add(byResource, paths[k], events[i].name);
        OneMorePath(before, paths, k, events[i].name);
      }
      assert paths[..|paths|] == paths;
      assert events[..i + 1][..i] == events[..i];
    }
    assert events[..|events|] == events;
  }

  lemma OneMorePath(before: multiset<Delivery>, paths: seq<string>, k: nat, name: string)
    requires k < |paths|
    ensures before + EventDeliveries(paths[..k], name) + multiset{Delivery(paths[k], name)}
         == before + EventDeliveries(paths[..k + 1], name)
  {
    assert paths[..k + 1][..k] == paths[..k];
  }

  /** The keys of the map in strictly increasing order. */
  method SortedResources(byResource: map<string, seq<string>>) returns (resources: seq<string>)
    ensures forall r :: r in resources <==> r in byResource
    ensures forall i, j :: 0 <= i < j < |resources| ==> Below(resources[i], resources[j])
  {
    var found: seq<string> := [];
    var left := byResource.Keys;
    while left != {}
      invariant left <= byResource.Keys
      invariant multiset(found) == multiset(byResource.Keys - left)
      decreases |left|
    {
      var r :| r in left;
      assert byResource.Keys - (left - {r}) == (byResource.Keys - left) + {r};
      left := left - {r};
      found := found + [r];
    }
    assert byResource.Keys - left == byResource.Keys;
    resources := SortStrings(found);
    SortedKeys(resources, byResource.Keys);
  }

  lemma SortedKeys(resources: seq<string>, keys: set<string>)
    requires Ordered(resources, AtMost) && multiset(resources) == multiset(keys)
    ensures forall r :: r in resources <==> r in keys
    ensures forall i, j :: 0 <= i < j < |resources| ==> Below(resources[i], resources[j])
  {
    forall r ensures r in resources <==> r in keys {
      assert r in resources <==> r in multiset(resources);
    }
    forall i, j | 0 <= i < j < |resources| ensures Below(resources[i], resources[j]) {
      if resources[i] == resources[j] { TwoPlaces(resources, i, j); }
      Trichotomy(resources[i], resources[j]);
      assert AtMost(resources[i], resources[j]);
    }
  }

  ghost predicate IsGroup(provider: string, resource: string, names: seq<string>, h: Handoff) {
    && h.provider == provider && h.resource == resource
    && Ordered(h.eventTypes, AtMost) && multiset(h.eventTypes) == multiset(names)
  }

  method BuildIntegrationHandoff(provider: string, events: seq<Event>) returns (handoff: seq<Handoff>)
    ensures Transposes(provider, Deliveries(events), handoff)
  {
    var byResource := GroupByResource(events);
    var resources := SortedResources(byResource);
    handoff := [];
    for i := 0 to |resources|
      invariant |handoff| == i
      invariant forall k :: 0 <= k < i ==> IsGroup(provider, resources[k], byResource[resources[k]], handoff[k])
    {
      handoff := handoff + [Handoff(provider, resources[i], SortStrings(byResource[resources[i]]))];
    }
    HandoffTransposes(provider, byResource, Deliveries(events), resources, handoff);
  }

  lemma HandoffTransposes(provider: string, byResource: map<string, seq<string>>, deliveries: multiset<Delivery>,
                          resources: seq<string>, handoff: seq<Handoff>)
    requires Groups(byResource, deliveries) && |handoff| == |resources|
    requires forall r :: r in resources <==> r in byResource
    requires forall i, j :: 0 <= i < j < |resources| ==> Below(resources[i], resources[j])
    requires forall k :: 0 <= k < |resources| ==>
               IsGroup(provider, resources[k], byResource[resources[k]], handoff[k])
    ensures Transposes(provider, deliveries, handoff)
  {
    forall k | 0 <= k < |handoff| ensures handoff[k].eventTypes != [] {
      assert resources[k] in byResource;
      assert |multiset(handoff[k].eventTypes)| == |multiset(byResource[resources[k]])|;
    }
    IncreasingIsDistinct(handoff);
    forall d ensures Unfolded(handoff)[d] == deliveries[d] {
      UnfoldsTo(provider, byResource, deliveries, resources, handoff, d);
    }
  }

  lemma UnfoldsTo(provider: string, byResource: map<string, seq<string>>, deliveries: multiset<Delivery>,
                  resources: seq<string>, handoff: seq<Handoff>, d: Delivery)
    requires Groups(byResource, deliveries) && |handoff| == |resources|
    requires forall r :: r in resources <==> r in byResource
    requires forall i, j :: 0 <= i < j < |handoff| ==> handoff[i].resource != handoff[j].resource
    requires forall k :: 0 <= k < |resources| ==>
               IsGroup(provider, resources[k], byResource[resources[k]], handoff[k])
    ensures Unfolded(handoff)[d] == deliveries[d]
  {
    if d.resource in byResource {
      assert d.resource in resources;
      var k :| 0 <= k < |resources| && resources[k] == d.resource;
      UnfoldedAt(handoff, k, d);
    } else {
      UnfoldedElsewhere(handoff, d);
    }
  }

  lemma IncreasingIsDistinct(handoff: seq<Handoff>)
    requires ResourcesIncrease(handoff)
    ensures forall i, j :: 0 <= i < j < |handoff| ==> handoff[i].resource != handoff[j].resource
  {
    forall i, j | 0 <= i < j < |handoff| ensures handoff[i].resource != handoff[j].resource {
      Irreflexive(handoff[i].resource);
    }
  }

  // ------------------------------------------------------ the deliveries determine the handoff

  lemma HandsOff(provider: string, deliveries: multiset<Delivery>, handoff: seq<Handoff>, k: nat, d: Delivery)
    requires Transposes(provider, deliveries, handoff) && k < |handoff| && handoff[k].resource == d.resource
    ensures multiset(handoff[k].eventTypes)[d.event] == deliveries[d]
  {
    IncreasingIsDistinct(handoff);
    UnfoldedAt(handoff, k, d);
  }

  /** Both handoffs have a group for every resource of the other. */
  lemma GroupIsShared(provider: string, deliveries: multiset<Delivery>, one: seq<Handoff>, two: seq<Handoff>, k: nat)
    requires Transposes(provider, deliveries, one) && Transposes(provider, deliveries, two) && k < |one|
    ensures one[k] in two
  {
    var name := one[k].eventTypes[0];
    var d := Delivery(one[k].resource, name);
    HandsOff(provider, deliveries, one, k, d);
    assert name in multiset(one[k].eventTypes);
    if forall i :: 0 <= i < |two| ==> two[i].resource != d.resource {
      UnfoldedElsewhere(two, d);
      assert false;
    }
    var i :| 0 <= i < |two| && two[i].resource == d.resource;
    forall e ensures multiset(one[k].eventTypes)[e] == multiset(two[i].eventTypes)[e] {
      HandsOff(provider, deliveries, one, k, Delivery(d.resource, e));
      HandsOff(provider, deliveries, two, i, Delivery(d.resource, e));
    }
    SortedIsUnique(one[k].eventTypes, two[i].eventTypes);
    assert two[i] == one[k];
  }

  predicate ResourceBelow(a: Handoff, b: Handoff) {
    Below(a.resource, b.resource)
  }

  lemma ResourceBelowIsStrict()
    ensures Strict(ResourceBelow)
  {
    forall a, b ensures !(ResourceBelow(a, b) && ResourceBelow(b, a)) { Trichotomy(a.resource, b.resource); }
  }

  /** There is one exact regrouping of a bag of deliveries. */
  lemma TransposeIsUnique(provider: string, deliveries: multiset<Delivery>, one: seq<Handoff>, two: seq<Handoff>)
    requires Transposes(provider, deliveries, one) && Transposes(provider, deliveries, two)
    ensures one == two
  {
    forall h ensures h in one <==> h in two {
      if h in one {
        var k :| 0 <= k < |one| && one[k] == h;
        GroupIsShared(provider, deliveries, one, two, k);
      }
      if h in two {
        var k :| 0 <= k < |two| && two[k] == h;
        GroupIsShared(provider, deliveries, two, one, k);
      }
    }
    ResourceBelowIsStrict();
    StrictlyOrderedIsUnique(one, two, ResourceBelow);
  }

  // ------------------------------------------------------------------ permuted events

  lemma DeliveriesOfLast(xs: seq<Event>, last: Event)
    ensures Deliveries(xs + [last]) == Deliveries(xs) + Share(last)
  {
    assert (xs + [last])[..|xs|] == xs;
  }

  lemma DeliveriesOfJoin(front: seq<Event>, back: seq<Event>)
    requires back != []
    ensures Deliveries(front + back) == Deliveries(front + back[..|back| - 1]) + Share(back[|back| - 1])
  {
    assert (front + back)[..|front + back| - 1] == front + back[..|back| - 1];
  }

  lemma Exchange(a: multiset<Delivery>, b: multiset<Delivery>, c: multiset<Delivery>)
    ensures a + b + c == a + c + b
  {
  }

  lemma {:induction false} DeliveriesOfMiddle(front: seq<Event>, event: Event, back: seq<Event>)
    ensures Deliveries(front + [event] + back) == Deliveries(front + back) + Share(event)
    decreases |back|
  {
    if back == [] {
      DeliveriesOfLast(front, event);
      assert front + [event] + back == front + [event] && front + back == front;
    } else {
      var n := |back| - 1;
      var init, last := back[..n], back[n];
      DeliveriesOfMiddle(front, event, init);
      DeliveriesOfJoin(front + [event], back);
      DeliveriesOfJoin(front, back);
      Exchange(Deliveries(front + init), Share(event), Share(last));
    }
  }

  lemma WithoutOne(xs: seq<Event>, front: seq<Event>, event: Event, back: seq<Event>)
    requires multiset(xs + [event]) == multiset(front + [event] + back)
    ensures multiset(xs) == multiset(front + back)
  {
    assert multiset(xs) == multiset(xs + [event]) - multiset{event};
    assert multiset(front + back) == multiset(front + [event] + back) - multiset{event};
  }

  /** The events matter as a bag: their order does not. */
  lemma {:induction false} DeliveriesOfPermutation(xs: seq<Event>, ys: seq<Event>)
    requires multiset(xs) == multiset(ys)
    ensures Deliveries(xs) == Deliveries(ys)
    decreases |xs|
  {
    assert |multiset(xs)| == |multiset(ys)|;
    if xs != [] {
      var init, event := xs[..|xs| - 1], xs[|xs| - 1];
      assert event in multiset(ys);
      var i :| 0 <= i < |ys| && ys[i] == event;
      var front, back := ys[..i], ys[i + 1..];
      assert xs == init + [event];
      assert ys == front + [event] + back;
      WithoutOne(init, front, event, back);
      DeliveriesOfPermutation(init, front + back);
      DeliveriesOfLast(init, event);
      DeliveriesOfMiddle(front, event, back);
    }
  }

  /** Any two handoffs built from permuted events are the same. */
  lemma HandoffIgnoresOrder(provider: string, xs: seq<Event>, ys: seq<Event>, one: seq<Handoff>, two: seq<Handoff>)
    requires multiset(xs) == multiset(ys)
    requires Transposes(provider, Deliveries(xs), one) && Transposes(provider, Deliveries(ys), two)
    ensures one == two
  {
    DeliveriesOfPermutation(xs, ys);
    TransposeIsUnique(provider, Deliveries(xs), one, two);
  }

  // ------------------------------------------------------------------- normalised events

  predicate NameAtMost(a: Event, b: Event) {
    AtMost(a.name, b.name)
  }

  lemma NameAtMostIsTotal()
    ensures TotalPreorder(NameAtMost)
  {
    AtMostIsTotal();
  }

  function WithSortedPaths(event: Event): (r: Event)
    ensures r.name == event.name && r.support == event.support && r.reason == event.reason
    ensures Ordered(r.paths, AtMost) && multiset(r.paths) == multiset(event.paths)
  {
    event.(paths := SortStrings(event.paths))
  }

  lemma PathOrderIsIgnored(event: Event)
    ensures Share(WithSortedPaths(event)) == Share(event)
  {
    assert |multiset(SortStrings(event.paths))| == |multiset(event.paths)|;
    forall d
      ensures Share(WithSortedPaths(event))[d] == Share(event)[d]
    {
      EventCount(Delivered(WithSortedPaths(event)), event.name, d);
      EventCount(Delivered(event), event.name, d);
    }
  }

  lemma NormalizedStep(normalized: seq<Event>, events: seq<Event>, i: nat, event: Event)
    requires i < |events|
    ensures Deliveries(normalized) == Deliveries(events[..i]) && Share(event) == Share(events[i]) ==>
              Deliveries(normalized + [event]) == Deliveries(events[..i + 1])
  {
    DeliveriesOfLast(normalized, event);
    DeliveriesOfPrefix(events, i);
  }

  lemma DeliveriesOfPrefix(events: seq<Event>, i: nat)
    requires i < |events|
    ensures Deliveries(events[..i + 1]) == Deliveries(events[..i]) + Share(events[i])
  {
    assert events[..i + 1][..i] == events[..i];
  }

  /** Every event with its paths sorted and everything else as it was. */
  function PathsSorted(events: seq<Event>): (r: seq<Event>)
    ensures |r| == |events|
  {
    if events == [] then [] else PathsSorted(events[..|events| - 1]) + [WithSortedPaths(events[|events| - 1])]
  }

  lemma PathsSortedStep(events: seq<Event>, i: nat)
    requires i < |events|
    ensures PathsSorted(events[..i + 1]) == PathsSorted(events[..i]) + [WithSortedPaths(events[i])]
  {
    assert events[..i + 1][..i] == events[..i];
  }

  function Named(name: string): Event -> bool {
    (event: Event) => event.name == name
  }

  /** Normalising a catalog sorts the paths of each event and then, stably, the events by
      name; an event's other fields survive, and no delivery changes. */
  method NormalizeIntegrationEvents(events: seq<Event>) returns (normalized: seq<Event>)
    ensures Ordered(normalized, NameAtMost) && multiset(normalized) == multiset(PathsSorted(events))
    ensures forall name :: Chosen(normalized, Named(name)) == Chosen(PathsSorted(events), Named(name))
    ensures Deliveries(normalized) == Deliveries(events)
  {
    normalized := [];
    for i := 0 to |events|
      invariant normalized == PathsSorted(events[..i])
      invariant Deliveries(normalized) == Deliveries(events[..i])
    {
      var event := WithSortedPaths(events[i]);
      PathOrderIsIgnored(events[i]);
      NormalizedStep(normalized, events, i, event);
      PathsSortedStep(events, i);
      normalized := normalized + [event];
    }
    assert events[..|events|] == events;
    normalized := SortByName(normalized);
  }

  method SortByName(events: seq<Event>) returns (sorted: seq<Event>)
    ensures Ordered(sorted, NameAtMost) && multiset(sorted) == multiset(events)
    ensures forall name :: Chosen(sorted, Named(name)) == Chosen(events, Named(name))
    ensures Deliveries(sorted) == Deliveries(events)
  {
    NameAtMostIsTotal();
    sorted := Sort(events, NameAtMost);
    DeliveriesOfPermutation(events, sorted);
    forall name ensures Chosen(sorted, Named(name)) == Chosen(events, Named(name)) {
      NamesakesAreAlike(name);
      SortIsStable(events, NameAtMost, Named(name));
    }
  }

  lemma NamesakesAreAlike(name: string)
    ensures Alike(Named(name), NameAtMost)
  {
    Irreflexive(name);
  }

  // ---------------------------------------------------------------- handed off or excluded

  method FilterSubscribableEvents(events: seq<Event>) returns (filtered: seq<Event>)
    ensures filtered == Selected(events, Subscribable)
  {
    filtered := [];
    for i := 0 to |events|
      invariant filtered == Selected(events[..i], Subscribable)
    {
      if Subscribable(events[i]) {
        filtered := filtered + [events[i]];
      }
      assert events[..i + 1][..i] == events[..i];
    }
    assert events[..|events|] == events;
  }

  /** The events that satisfy a condition, in their order. */
  function Selected(events: seq<Event>, keep: Event -> bool): seq<Event> {
    if events == [] then []
    else
      var rest := Selected(events[..|events| - 1], keep);
      if keep(events[|events| - 1]) then rest + [events[|events| - 1]] else rest
  }

  function NotSubscribable(event: Event): bool {
    !Subscribable(event)
  }

  function Excluded(event: Event): Exclusion {
    Exclusion(event.name, DefaultIfBlank(event.support, "unknown"), TrimSpace(event.reason))
  }

  /** The entries of a list of events, one each, in their order. */
  function Listed(events: seq<Event>, entry: Event -> Exclusion): (r: seq<Exclusion>)
    ensures |r| == |events| && forall k :: 0 <= k < |r| ==> r[k] == entry(events[k])
  {
    seq(|events|, k requires 0 <= k < |events| => entry(events[k]))
  }

  method BuildIntegrationDescription(provider: string, events: seq<Event>)
    returns (handoff: seq<Handoff>, excluded: seq<Exclusion>)
    ensures Transposes(provider, Deliveries(Selected(events, Subscribable)), handoff)
    ensures excluded == Listed(Selected(events, NotSubscribable), Excluded)
  {
    var subscribable := FilterSubscribableEvents(events);
    handoff := BuildIntegrationHandoff(provider, subscribable);
    excluded := Exclusions(events);
  }

  method Exclusions(events: seq<Event>) returns (excluded: seq<Exclusion>)
    ensures excluded == Listed(Selected(events, NotSubscribable), Excluded)
  {
    excluded := [];
    for i := 0 to |events|
      invariant excluded == Listed(Selected(events[..i], NotSubscribable), Excluded)
    {
      ListedStep(events, i, NotSubscribable, Excluded);
      if !Subscribable(events[i]) {
        var support := if TrimSpace(events[i].support) == "" then "unknown" else events[i].support;
        excluded := excluded + [Exclusion(events[i].name, support, TrimSpace(events[i].reason))];
      }
    }
    assert events[..|events|] == events;
  }

  lemma ListedStep(events: seq<Event>, i: nat, keep: Event -> bool, entry: Event -> Exclusion)
    requires i < |events|
    ensures Listed(Selected(events[..i + 1], keep), entry)
         == Listed(Selected(events[..i], keep), entry) + if keep(events[i]) then [entry(events[i])] else []
  {
    assert events[..i + 1][..i] == events[..i];
  }

  lemma {:induction false} SelectedIsExact(events: seq<Event>, keep: Event -> bool, event: Event)
    ensures multiset(Selected(events, keep))[event] == if keep(event) then multiset(events)[event] else 0
  {
    if events != [] {
      var n := |events| - 1;
      SelectedIsExact(events[..n], keep, event);
      assert events == events[..n] + [events[n]];
    }
  }

  /** Every occurrence of an event is handed off or excluded, never both. */
  lemma EachEventOnce(events: seq<Event>)
    ensures multiset(events) == multiset(Selected(events, Subscribable)) + multiset(Selected(events, NotSubscribable))
    ensures multiset(Selected(events, Subscribable)) !! multiset(Selected(events, NotSubscribable))
  {
    forall event
      ensures multiset(Selected(events, Subscribable))[event] == if Subscribable(event) then multiset(events)[event] else 0
      ensures multiset(Selected(events, NotSubscribable))[event] == if Subscribable(event) then 0 else multiset(events)[event]
    {
      SelectedIsExact(events, Subscribable, event);
      SelectedIsExact(events, NotSubscribable, event);
    }
  }

  lemma SharedIff(event: Event, d: Delivery)
    ensures d in Share(event) <==>
              event.name == d.event && (d.resource in event.paths || (event.paths == [] && d.resource == ""))
  {
    EventCount(Delivered(event), event.name, d);
    assert d.resource in Delivered(event) <==> multiset(Delivered(event))[d.resource] > 0;
  }

  /** A delivery is handed off exactly when a subscribable event of that name has that path. */
  lemma {:induction false} DeliveredIff(events: seq<Event>, d: Delivery)
    ensures d in Deliveries(events) <==>
              exists i :: 0 <= i < |events| && events[i].name == d.event
                          && (d.resource in events[i].paths || (events[i].paths == [] && d.resource == ""))
  {
    if events != [] {
      var n := |events| - 1;
      DeliveredIff(events[..n], d);
      SharedIff(events[n], d);
      assert forall i :: 0 <= i < n ==> events[..n][i] == events[i];
    }
  }

  /** Over the whole description: permuting the events changes neither the handoff nor
      which events are excluded how often. */
  lemma DescriptionIgnoresOrder(provider: string, xs: seq<Event>, ys: seq<Event>, one: seq<Handoff>, two: seq<Handoff>)
    requires multiset(xs) == multiset(ys)
    requires Transposes(provider, Deliveries(Selected(xs, Subscribable)), one)
    requires Transposes(provider, Deliveries(Selected(ys, Subscribable)), two)
    ensures one == two
    ensures multiset(Selected(xs, NotSubscribable)) == multiset(Selected(ys, NotSubscribable))
  {
    forall event
      ensures multiset(Selected(xs, Subscribable))[event] == multiset(Selected(ys, Subscribable))[event]
      ensures multiset(Selected(xs, NotSubscribable))[event] == multiset(Selected(ys, NotSubscribable))[event]
    {
      SelectedIsExact(xs, Subscribable, event);
      SelectedIsExact(ys, Subscribable, event);
      SelectedIsExact(xs, NotSubscribable, event);
      SelectedIsExact(ys, NotSubscribable, event);
    }
    HandoffIgnoresOrder(provider, Selected(xs, Subscribable), Selected(ys, Subscribable), one, two);
  }

  lemma {:induction false} SelectedOfSortedPaths(events: seq<Event>)
    ensures Deliveries(Selected(PathsSorted(events), Subscribable)) == Deliveries(Selected(events, Subscribable))
  {
    if events != [] {
      var n := |events| - 1;
      var last := events[n];
      SelectedOfSortedPaths(events[..n]);
      assert PathsSorted(events)[..n] == PathsSorted(events[..n]);
      if Subscribable(last) {
        PathOrderIsIgnored(last);
        DeliveriesOfLast(Selected(events[..n], Subscribable), last);
        DeliveriesOfLast(Selected(PathsSorted(events[..n]), Subscribable), WithSortedPaths(last));
      }
    }
  }

  /** So a catalog may be normalised before it is described: the handoff is the same. */
  lemma NormalizedHandoffIsSame(provider: string, events: seq<Event>, normalized: seq<Event>, one: seq<Handoff>, two: seq<Handoff>)
    requires multiset(normalized) == multiset(PathsSorted(events))
    requires Transposes(provider, Deliveries(Selected(events, Subscribable)), one)
    requires Transposes(provider, Deliveries(Selected(normalized, Subscribable)), two)
    ensures one == two
  {
    SelectedOfSortedPaths(events);
    DescriptionIgnoresOrder(provider, PathsSorted(events), normalized, one, two);
  }
}
