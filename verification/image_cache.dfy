/**
 Preparing the image caches of a release with several workers over an unpredictable backend, and
 choosing which old caches to retire.
*/
module ImageCache {
  import opened Faults

  type Image = string

  // A group of the plan. The source keeps it sorted and free of repeats, so that it stands for a set.
  type Group = set<Image>

  // ---- The plan: `parseCachePlan` ----

  function Normal(group: seq<Image>): Group {
    set i | 0 <= i < |group| :: group[i]
  }

  // The groups in order, each at its first place.
  function Unique(groups: seq<seq<Image>>): (r: seq<Group>)
    ensures forall i, j :: 0 <= i < j < |r| ==> r[i] != r[j]
    ensures forall g :: g in r <==> exists i :: 0 <= i < |groups| && Normal(groups[i]) == g
  {
    if groups == [] then []
    else
      var n := |groups| - 1;
      var r := Unique(groups[..n]);
      assert forall i :: 0 <= i < n ==> groups[..n][i] == groups[i];
      if Normal(groups[n]) in r then r else r + [Normal(groups[n])]
  }

  // A group of 1 to 8 valid images.
  predicate ValidGroup(group: seq<Image>, valid: Image -> bool) {
    0 < |group| <= 8 && forall j :: 0 <= j < |group| ==> valid(group[j])
  }

  function Distinct(groups: seq<seq<Image>>): set<Group> {
    set i | 0 <= i < |groups| :: Normal(groups[i])
  }

  function ParsePlan(groups: seq<seq<Image>>, valid: Image -> bool): (r: Option<seq<Group>>)
    ensures r.Some? <==>
      && 0 < |groups| <= 48 && |Distinct(groups)| <= 24
      && forall i :: 0 <= i < |groups| ==> ValidGroup(groups[i], valid)
    ensures r.Some? ==> forall i, j :: 0 <= i < j < |r.value| ==> r.value[i] != r.value[j]
    ensures r.Some? ==> forall g :: g in r.value <==> exists i :: 0 <= i < |groups| && Normal(groups[i]) == g
    ensures r.Some? ==> forall g, x :: g in r.value && x in g ==> valid(x)
  {
    if !(0 < |groups| <= 48) then None
    else if exists i :: 0 <= i < |groups| && !ValidGroup(groups[i], valid) then None
    else
      var r := Unique(groups);
      UniqueCounts(groups);
      if |r| <= 24 then Some(r) else None
  }

  lemma UniqueCounts(groups: seq<seq<Image>>)
    ensures |Unique(groups)| == |Distinct(groups)|
  {
    var r := Unique(groups);
    forall g ensures g in Distinct(groups) <==> g in r {
      assert g in r <==> exists i :: 0 <= i < |groups| && Normal(groups[i]) == g;
    }
    assert Distinct(groups) == set g | g in r;
    DistinctCounts(r);
  }

  lemma {:induction false} DistinctCounts(r: seq<Group>)
    requires forall i, j :: 0 <= i < j < |r| ==> r[i] != r[j]
    ensures |set g | g in r| == |r|
  {
    if r != [] {
      var n := |r| - 1;
      DistinctCounts(r[..n]);
      assert (set g | g in r) == (set g | g in r[..n]) + {r[n]};
    }
  }

  // ---- The backend ----

  datatype Phase = Ready | Broken | Pending

  // A cache as the backend shows it. `current`: it does not expire within five minutes.
  datatype View = View(owned: bool, images: Group, phase: Phase, id: Option<string>, deleting: bool, current: bool)

  // A prepared cache of the receipt.
  datatype Cache = Cache(name: string, id: string, images: Group)

  // `assertCacheReady`
  predicate ReadyFor(v: View, images: Group) {
    v.owned && v.images == images && !v.deleting && v.phase.Ready? && v.id.Some? && v.current
  }

  const RETRY := "-retry1"

  // ---- The workers of `ensureCaches` ----

  // The plan, how a group is named, and whether caches may only be looked at.
  datatype Config = Config(groups: seq<Group>, nameOf: Group -> string, checkOnly: bool)

  // The two names a group may be cached under.
  predicate NamesGroup(nameOf: Group -> string, g: Group, name: string) {
    name == nameOf(g) || name == nameOf(g) + RETRY
  }

  // Where `ensureOne` stands: about to look the group up, under its name or its second name; about to
  // create the cache; polling it; reporting it.
  datatype Stage = Primary | Second | Creating(name: string) | Polling(name: string) | Reporting
  datatype Worker = Free | On(group: nat, stage: Stage) | Returned | Rejected

  // What the backend was asked, and what it showed.
  datatype Call = Got(name: string, view: Option<View>) | Created(name: string)

  datatype Pool = Pool(
    next: nat,
    workers: seq<Worker>,
    results: map<Group, Cache>,
    claimed: seq<nat>,
    created: seq<nat>,
    calls: seq<Call>)

  // What one worker does between two awaits. `late`: the deadline has passed. `fails`: the call threw;
  // `Throw` is a lookup that did.
  datatype Step =
    | Claim(w: nat)
    | Look(w: nat, view: Option<View>, late: bool)
    | Create(w: nat, fails: bool)
    | Report(w: nat, fails: bool)
    | Throw(w: nat)

  predicate Looks(s: Stage) {
    s.Primary? || s.Second? || s.Polling?
  }

  predicate Enabled(p: Pool, c: Config, s: Step) {
    && s.w < |p.workers|
    && var w := p.workers[s.w];
       match s
       case Claim(_) => w.Free?
       case Look(_, _, _) => w.On? && w.group < |c.groups| && Looks(w.stage)
       case Create(_, _) => w.On? && w.group < |c.groups| && w.stage.Creating?
       case Report(_, _) => w.On? && w.stage.Reporting?
       case Throw(_) => w.On? && w.group < |c.groups|
  }

  function LookedUp(c: Config, g: Group, s: Stage): string
    requires Looks(s)
  {
    if s.Primary? then c.nameOf(g) else if s.Second? then c.nameOf(g) + RETRY else s.name
  }

  // The view is of a cache of ours with the images of the group.
  predicate Matches(v: View, g: Group) {
    v.owned && v.images == g
  }

  // What a worker does next, given what it was shown.
  function Proceed(c: Config, g: nat, s: Stage, view: Option<View>, late: bool): Worker
    requires g < |c.groups| && Looks(s)
  {
    var images := c.groups[g];
    var name := LookedUp(c, images, s);
    var giveUp := c.checkOnly || late;
    match view
    case None => if giveUp then Rejected else if s.Polling? then On(g, s) else On(g, Creating(name))
    case Some(v) =>
      if s.Primary? && v.phase.Broken? then (if Matches(v, images) then On(g, Second) else Rejected)
      else if !s.Polling? then On(g, Polling(name))
      else if !Matches(v, images) then Rejected
      else if v.phase.Ready? then (if ReadyFor(v, images) then On(g, Reporting) else Rejected)
      else if v.phase.Broken? || giveUp then Rejected
      else On(g, s)
  }

  function Apply(p: Pool, c: Config, s: Step): Pool
    requires Enabled(p, c, s)
  {
    var w := p.workers[s.w];
    match s
    case Claim(i) =>
      if p.next < |c.groups| then
        p.(next := p.next + 1, workers := p.workers[i := On(p.next, Primary)], claimed := p.claimed + [p.next])
      else
        p.(next := p.next + 1, workers := p.workers[i := Returned])
    case Look(i, view, late) =>
      var images := c.groups[w.group];
      var w' := Proceed(c, w.group, w.stage, view, late);
      p.(workers := p.workers[i := w'],
         calls := p.calls + [Got(LookedUp(c, images, w.stage), view)],
         results := if w'.On? && w'.stage.Reporting?
                    then p.results[images := Cache(LookedUp(c, images, w.stage), view.value.id.value, images)]
                    else p.results)
    case Create(i, fails) =>
      p.(workers := p.workers[i := if fails then Rejected else On(w.group, Polling(w.stage.name))],
         created := p.created + [w.group],
         calls := p.calls + [Created(w.stage.name)])
    case Report(i, fails) => p.(workers := p.workers[i := if fails then Rejected else Free])
    case Throw(i) =>
      p.(workers := p.workers[i := Rejected],
         calls := if Looks(w.stage) then p.calls + [Got(LookedUp(c, c.groups[w.group], w.stage), None)] else p.calls)
  }

  // A worker that is on this group, or has given up.
  predicate MayOwe(w: Worker, g: nat) {
    w.Rejected? || (w.On? && w.group == g)
  }

  // The group has its result, or some worker owes it.
  ghost predicate Accounted(p: Pool, c: Config, g: nat)
    requires g < |c.groups|
  {
    c.groups[g] in p.results || exists i :: 0 <= i < |p.workers| && MayOwe(p.workers[i], g)
  }

  predicate WorkerInv(p: Pool, c: Config, w: Worker) {
    match w
    case On(g, stage) =>
      && g < |p.claimed| <= |c.groups|
      && (stage.Primary? || stage.Second? || stage.Creating? ==> g !in p.created)
      && (stage.Creating? || stage.Polling? ==> NamesGroup(c.nameOf, c.groups[g], stage.name))
      && (stage.Reporting? ==> c.groups[g] in p.results)
    case Returned => |p.claimed| == |c.groups|
    case _ => true
  }

  // No two workers are on the same group.
  ghost predicate Apart(workers: seq<Worker>) {
    forall i, j :: 0 <= i < j < |workers| && workers[i].On? && workers[j].On? ==> workers[i].group != workers[j].group
  }

  // The cache was looked up under its name and seen to be ready for its images.
  ghost predicate Witnessed(calls: seq<Call>, r: Cache) {
    exists k :: 0 <= k < |calls| && ShowsReady(calls[k], r)
  }

  predicate ShowsReady(k: Call, r: Cache) {
    k.Got? && k.name == r.name && k.view.Some? && ReadyFor(k.view.value, r.images) && k.view.value.id == Some(r.id)
  }

  ghost predicate ResultInv(p: Pool, c: Config, g: Group)
    requires g in p.results
  {
    p.results[g].images == g && NamesGroup(c.nameOf, g, p.results[g].name) && Witnessed(p.calls, p.results[g])
  }

  // A name that belongs to some group of the plan.
  ghost predicate Planned(c: Config, name: string) {
    exists i :: 0 <= i < |c.groups| && NamesGroup(c.nameOf, c.groups[i], name)
  }

  ghost predicate Inv(p: Pool, c: Config) {
    && |p.claimed| == (if p.next < |c.groups| then p.next else |c.groups|)
    && (forall i :: 0 <= i < |p.claimed| ==> p.claimed[i] == i)
    && (forall i :: 0 <= i < |p.created| ==> p.created[i] < |p.claimed|)
    && (forall i, j :: 0 <= i < j < |p.created| ==> p.created[i] != p.created[j])
    && (forall i :: 0 <= i < |p.workers| ==> WorkerInv(p, c, p.workers[i]))
    && Apart(p.workers)
    && (forall g :: 0 <= g < |p.claimed| ==> Accounted(p, c, g))
    && (forall g :: g in p.results ==> ResultInv(p, c, g))
    && (forall k :: 0 <= k < |p.calls| ==> Planned(c, p.calls[k].name))
  }

  lemma StepKeepsAccounts(p: Pool, c: Config, s: Step, g: nat)
    requires Inv(p, c) && Enabled(p, c, s) && g < |Apply(p, c, s).claimed| <= |c.groups|
    ensures Accounted(Apply(p, c, s), c, g)
  {
    var p' := Apply(p, c, s);
    assert WorkerInv(p, c, p.workers[s.w]);
    if g == |p.claimed| {
      assert MayOwe(p'.workers[s.w], g);
    } else if c.groups[g] !in p'.results {
      assert Accounted(p, c, g);
      var i :| 0 <= i < |p.workers| && MayOwe(p.workers[i], g);
      assert MayOwe(p'.workers[i], g);
    }
  }

  lemma StepKeepsWorkers(p: Pool, c: Config, s: Step)
    requires Inv(p, c) && Enabled(p, c, s)
    ensures var p' := Apply(p, c, s);
      Apart(p'.workers) && forall i :: 0 <= i < |p'.workers| ==> WorkerInv(p', c, p'.workers[i])
  {
    var p' := Apply(p, c, s);
    assert WorkerInv(p, c, p.workers[s.w]);
    forall i | 0 <= i < |p'.workers| ensures WorkerInv(p', c, p'.workers[i]) {
      assert WorkerInv(p, c, p.workers[i]);
      if s.Create? && p.workers[i].On? && i != s.w {
        assert p.workers[i].group != p.workers[s.w].group;
      }
    }
    forall i, j | 0 <= i < j < |p'.workers| && p'.workers[i].On? && p'.workers[j].On?
      ensures p'.workers[i].group != p'.workers[j].group
    {
      assert i != s.w ==> WorkerInv(p, c, p.workers[i]);
      assert j != s.w ==> WorkerInv(p, c, p.workers[j]);
    }
  }

  // Whatever was seen stays seen, and every name asked for belongs to the plan.
  lemma StepKeepsCalls(p: Pool, c: Config, s: Step)
    requires Inv(p, c) && Enabled(p, c, s)
    ensures var p' := Apply(p, c, s);
      && (forall g :: g in p'.results ==> ResultInv(p', c, g))
      && (forall k :: 0 <= k < |p'.calls| ==> Planned(c, p'.calls[k].name))
  {
    var p' := Apply(p, c, s);
    var w := p.workers[s.w];
    assert WorkerInv(p, c, w);
    if |p'.calls| > |p.calls| {
      assert NamesGroup(c.nameOf, c.groups[w.group], p'.calls[|p.calls|].name);
    }
    forall g | g in p'.results ensures ResultInv(p', c, g) {
      if g in p.results && p'.results[g] == p.results[g] {
        assert ResultInv(p, c, g);
        var k :| 0 <= k < |p.calls| && ShowsReady(p.calls[k], p.results[g]);
        assert ShowsReady(p'.calls[k], p'.results[g]);
      } else {
        assert ShowsReady(p'.calls[|p.calls|], p'.results[g]);
      }
    }
  }

  lemma StepKeepsInv(p: Pool, c: Config, s: Step)
    requires Inv(p, c) && Enabled(p, c, s)
    ensures Inv(Apply(p, c, s), c)
  {
    StepKeepsWorkers(p, c, s);
    StepKeepsCalls(p, c, s);
    assert WorkerInv(p, c, p.workers[s.w]);
    forall g | 0 <= g < |Apply(p, c, s).claimed| ensures Accounted(Apply(p, c, s), c, g) {
      StepKeepsAccounts(p, c, s, g);
    }
  }

  predicate Possible(p: Pool, c: Config, steps: seq<Step>)
    decreases |steps|
  {
    steps == [] || (Enabled(p, c, steps[0]) && Possible(Apply(p, c, steps[0]), c, steps[1..]))
  }

  function After(p: Pool, c: Config, steps: seq<Step>): Pool
    requires Possible(p, c, steps)
    decreases |steps|
  {
    if steps == [] then p else After(Apply(p, c, steps[0]), c, steps[1..])
  }

  lemma {:induction false} RunKeepsInv(p: Pool, c: Config, steps: seq<Step>)
    requires Inv(p, c) && Possible(p, c, steps)
    ensures Inv(After(p, c, steps), c) && |After(p, c, steps).workers| == |p.workers|
    decreases |steps|
  {
    if steps != [] {
      StepKeepsInv(p, c, steps[0]);
      RunKeepsInv(Apply(p, c, steps[0]), c, steps[1..]);
    }
  }

  function Begun(workers: nat): Pool {
    Pool(0, seq(workers, _ => Free), map[], [], [], [])
  }

  // In every interleaving of any number of workers, whatever the backend shows: each group is claimed at
  // most once, in plan order; no group is created twice, so creations never outnumber the groups; and
  // every name looked up or created belongs to a group of the plan.
  lemma {:induction false} PoolIsSafe(workers: nat, c: Config, steps: seq<Step>)
    requires Possible(Begun(workers), c, steps)
    ensures var p := After(Begun(workers), c, steps);
      && (forall i :: 0 <= i < |p.claimed| ==> p.claimed[i] == i < |c.groups|)
      && (forall i, j :: 0 <= i < j < |p.created| ==> p.created[i] != p.created[j])
      && |p.created| <= |p.claimed| <= |c.groups|
      && (forall k :: 0 <= k < |p.calls| ==> Planned(c, p.calls[k].name))
  {
    RunKeepsInv(Begun(workers), c, steps);
    var p := After(Begun(workers), c, steps);
    DistinctBelow(p.created, |p.claimed|);
  }

  lemma {:induction false} DistinctBelow(s: seq<nat>, n: nat)
    requires forall i :: 0 <= i < |s| ==> s[i] < n
    requires forall i, j :: 0 <= i < j < |s| ==> s[i] != s[j]
    ensures |s| <= n
  {
    if s == [] { return; }
    assert s[0] < n;
    if n - 1 in s {
      var k :| 0 <= k < |s| && s[k] == n - 1;
      var rest := s[..k] + s[k + 1..];
      assert forall i :: 0 <= i < |rest| ==> rest[i] == if i < k then s[i] else s[i + 1];
      DistinctBelow(rest, n - 1);
    } else {
      DistinctBelow(s, n - 1);
    }
  }

  // Once every worker has returned, every group was claimed and has a result: under one of its names,
  // seen to be ready for exactly its images.
  lemma {:induction false} ReturnedPoolIsComplete(workers: nat, c: Config, steps: seq<Step>)
    requires workers > 0 && Possible(Begun(workers), c, steps)
    requires forall w :: w in After(Begun(workers), c, steps).workers ==> w.Returned?
    ensures var p := After(Begun(workers), c, steps);
      |p.claimed| == |c.groups| && forall i :: 0 <= i < |c.groups| ==>
        c.groups[i] in p.results && ResultInv(p, c, c.groups[i])
  {
    RunKeepsInv(Begun(workers), c, steps);
    var p := After(Begun(workers), c, steps);
    assert p.workers[0].Returned? && WorkerInv(p, c, p.workers[0]);
    forall i | 0 <= i < |c.groups| ensures c.groups[i] in p.results && ResultInv(p, c, c.groups[i]) {
      assert Accounted(p, c, i);
      assert forall j :: 0 <= j < |p.workers| ==> p.workers[j] in p.workers;
    }
  }

  // ---- The receipt ----

  // The caches by name, as they change, and every look taken at them.
  class Backend {
    var caches: map<string, View>
    ghost var looks: seq<(string, Option<View>)>

    // `get`: anything may have become of the caches in the meantime.
    method Get(name: string) returns (v: Option<View>)
      modifies this
      ensures v == if name in caches then Some(caches[name]) else None
      ensures looks == old(looks) + [(name, v)]
    {
      caches := *;
      v := if name in caches then Some(caches[name]) else None;
      looks := looks + [(name, v)];
    }
  }

  // The look at a cache found it ready, with the same id.
  predicate StillReady(look: (string, Option<View>), r: Cache) {
    look.0 == r.name && look.1.Some? && ReadyFor(look.1.value, r.images) && look.1.value.id == Some(r.id)
  }

  // The results in plan order.
  method InOrder(groups: seq<Group>, results: map<Group, Cache>) returns (caches: Option<seq<Cache>>)
    ensures caches.Some? <==> forall i :: 0 <= i < |groups| ==> groups[i] in results
    ensures caches.Some? ==> |caches.value| == |groups|
    ensures caches.Some? ==> forall i :: 0 <= i < |groups| ==> caches.value[i] == results[groups[i]]
  {
    var ordered: seq<Cache> := [];
    for i := 0 to |groups|
      invariant |ordered| <= i
      invariant |ordered| == i <==> forall k :: 0 <= k < i ==> groups[k] in results
      invariant |ordered| == i ==> forall k :: 0 <= k < i ==> ordered[k] == results[groups[k]]
    {
      if groups[i] in results { ordered := ordered + [results[groups[i]]]; }
    }
    caches := if |ordered| == |groups| then Some(ordered) else None;
  }

  // What `ensureCaches` does once its workers have ended, in whatever way. A receipt lists one cache per
  // group in plan order, each under a name of its group, seen to be ready by a worker and again, under
  // that name and with the same id, at the end. Without a rejected worker there is no receipt only if
  // one of these second looks fails.
  method Receipt(workers: nat, c: Config, ghost steps: seq<Step>, p: Pool, backend: Backend)
    returns (caches: Option<seq<Cache>>)
    requires workers > 0 && Possible(Begun(workers), c, steps) && p == After(Begun(workers), c, steps)
    requires forall w :: w in p.workers ==> w.Returned? || w.Rejected?
    modifies backend
    ensures caches.Some? ==> Rejected !in p.workers && |caches.value| == |c.groups|
    ensures caches.Some? ==> forall i :: 0 <= i < |c.groups| ==>
      var r := caches.value[i];
      r.images == c.groups[i] && NamesGroup(c.nameOf, c.groups[i], r.name) && Witnessed(p.calls, r)
    ensures caches.Some? ==> |backend.looks| == |old(backend.looks)| + |c.groups|
    ensures caches.Some? ==> forall i :: 0 <= i < |c.groups| ==>
      StillReady(backend.looks[|old(backend.looks)| + i], caches.value[i])
    ensures Rejected !in p.workers && caches.None? ==>
      exists g :: g in c.groups && g in p.results && |backend.looks| > |old(backend.looks)| &&
        backend.looks[|backend.looks| - 1].0 == p.results[g].name &&
        !StillReady(backend.looks[|backend.looks| - 1], p.results[g])
  {
    if Rejected in p.workers { return None; }
    ReturnedPoolIsComplete(workers, c, steps);
    var ordered := InOrder(c.groups, p.results);
    for i := 0 to |ordered.value|
      invariant |backend.looks| == |old(backend.looks)| + i
      invariant forall k :: 0 <= k < i ==> StillReady(backend.looks[|old(backend.looks)| + k], ordered.value[k])
    {
      var r := ordered.value[i];
      var v := backend.Get(r.name);
      if v.None? || v.value.id != Some(r.id) || !ReadyFor(v.value, r.images) {
        assert c.groups[i] in c.groups && p.results[c.groups[i]] == r;
        return None;
      }
    }
    caches := ordered;
  }

  // ---- Retirement: `selectCachesToRetire` ----

  // A cache of the inventory. `rank` is the place of its name in the collation. `legible`: it has a uid, a
  // date of creation and a list of images.
  datatype Item = Item(
    name: string,
    rank: int,
    id: Option<string>,
    createdAt: int,
    owned: bool,
    legible: bool,
    deleting: bool,
    images: Group)

  // Ties of age are broken by name.
  predicate NotOlder(a: Item, b: Item) {
    a.createdAt > b.createdAt || (a.createdAt == b.createdAt && a.rank >= b.rank)
  }

  ghost predicate Sorted(s: seq<Item>) {
    forall i, j :: 0 <= i < j < |s| ==> NotOlder(s[i], s[j])
  }

  function Insert(c: Item, s: seq<Item>): seq<Item> {
    if s == [] || NotOlder(c, s[0]) then [c] + s else [s[0]] + Insert(c, s[1..])
  }

  function NewestFirst(s: seq<Item>): seq<Item> {
    if s == [] then [] else Insert(s[0], NewestFirst(s[1..]))
  }

  lemma {:induction false} InsertAdds(c: Item, s: seq<Item>)
    ensures multiset(Insert(c, s)) == multiset(s) + multiset{c}
  {
    if s != [] && !NotOlder(c, s[0]) {
      InsertAdds(c, s[1..]);
      assert s == [s[0]] + s[1..];
    }
  }

  lemma {:induction false} InsertSorts(c: Item, s: seq<Item>)
    requires Sorted(s)
    ensures Sorted(Insert(c, s))
  {
    if s == [] { return; }
    if NotOlder(c, s[0]) {
      assert forall j :: 0 < j < |s| ==> NotOlder(s[0], s[j]);
    } else {
      InsertSorts(c, s[1..]);
      InsertAdds(c, s[1..]);
      var r := Insert(c, s[1..]);
      forall j | 0 <= j < |r| ensures NotOlder(s[0], r[j]) {
        assert r[j] in multiset(r);
        assert r[j] == c || r[j] in s[1..];
      }
    }
  }

  lemma {:induction false} NewestFirstSorts(s: seq<Item>)
    ensures Sorted(NewestFirst(s)) && multiset(NewestFirst(s)) == multiset(s)
  {
    if s != [] {
      NewestFirstSorts(s[1..]);
      InsertSorts(s[0], NewestFirst(s[1..]));
      InsertAdds(s[0], NewestFirst(s[1..]));
      assert s == [s[0]] + s[1..];
    }
  }

  function OwnedOf(s: seq<Item>): (r: seq<Item>)
    ensures forall c :: c in r <==> c in s && c.owned
    ensures |r| <= |s|
  {
    if s == [] then [] else
      assert s == [s[0]] + s[1..];
      (if s[0].owned then [s[0]] else []) + OwnedOf(s[1..])
  }

  // What keeps a cache, the first that applies.
  datatype Reason = CurrentPlan | AdmissionReference | InUse | Deleting | Newest | Expendable

  datatype Needs = Needs(planned: set<string>, admission: set<string>, inUse: set<Image>, newest: set<string>)

  function Why(c: Item, n: Needs): Reason {
    if c.name in n.planned then CurrentPlan
    else if c.id.Some? && c.id.value in n.admission then AdmissionReference
    else if c.images * n.inUse != {} then InUse
    else if c.deleting then Deleting
    else if c.name in n.newest then Newest
    else Expendable
  }

  function Count(s: seq<Item>, n: Needs, why: Reason): (k: nat)
    ensures k <= |s|
  {
    if s == [] then 0 else (if Why(s[0], n) == why then 1 else 0) + Count(s[1..], n, why)
  }

  lemma {:induction false} CountsAddUp(s: seq<Item>, n: Needs)
    ensures Count(s, n, CurrentPlan) + Count(s, n, AdmissionReference) + Count(s, n, InUse) + Count(s, n, Deleting) +
            Count(s, n, Newest) + Count(s, n, Expendable) == |s|
  {
    if s != [] { CountsAddUp(s[1..], n); }
  }

  // None of the newest is expendable.
  lemma {:induction false} NewestSurvive(order: seq<Item>, top: nat, n: Needs)
    requires top <= |order| && forall i :: 0 <= i < top ==> order[i].name in n.newest
    ensures Count(order, n, Expendable) <= |order| - top
  {
    if top > 0 { NewestSurvive(order[1..], top - 1, n); }
  }

  datatype Kept = Kept(plan: nat, admission: nat, inUse: nat, deleting: nat, newest: nat)

  ghost predicate Counts(k: Kept, s: seq<Item>, n: Needs) {
    && k.plan == Count(s, n, CurrentPlan) && k.admission == Count(s, n, AdmissionReference)
    && k.inUse == Count(s, n, InUse)
    && k.deleting == Count(s, n, Deleting) && k.newest == Count(s, n, Newest)
  }

  // The loop over the owned caches, oldest first.
  method Sift(order: seq<Item>, n: Needs) returns (retire: seq<Item>, kept: Kept)
    requires Sorted(order)
    ensures Counts(kept, order, n) && |retire| == Count(order, n, Expendable)
    ensures forall c :: c in retire <==> c in order && Why(c, n).Expendable?
    ensures forall i, j :: 0 <= i < j < |retire| ==> NotOlder(retire[j], retire[i])
  {
    retire, kept := [], Kept(0, 0, 0, 0, 0);
    var i := |order|;
    while i > 0
      invariant 0 <= i <= |order|
      invariant Counts(kept, order[i..], n) && |retire| == Count(order[i..], n, Expendable)
      invariant forall c :: c in retire <==> c in order[i..] && Why(c, n).Expendable?
      invariant forall a, b :: 0 <= a < b < |retire| ==> NotOlder(retire[b], retire[a])
    {
      i := i - 1;
      var c := order[i];
      assert order[i..] == [c] + order[i + 1..];
      if c.name in n.planned { kept := kept.(plan := kept.plan + 1); }
      else if c.id.Some? && c.id.value in n.admission { kept := kept.(admission := kept.admission + 1); }
      else if c.images * n.inUse != {} { kept := kept.(inUse := kept.inUse + 1); }
      else if c.deleting { kept := kept.(deleting := kept.deleting + 1); }
      else if c.name in n.newest { kept := kept.(newest := kept.newest + 1); }
      else {
        forall a | 0 <= a < |retire| ensures NotOlder(c, retire[a]) {
          assert retire[a] in order[i + 1..];
        }
        retire := retire + [c];
      }
    }
    assert order[0..] == order;
  }

  datatype Selection = Selection(retire: seq<Item>, kept: Kept, owned: nat, foreign: nat)

  function Names(s: seq<Item>): set<string> {
    set i | 0 <= i < |s| :: s[i].name
  }

  // The names `ensureCaches` looks up for a plan.
  function PlannedNames(plan: seq<Group>, nameOf: Group -> string): (r: set<string>)
    ensures forall name :: name in r <==> exists g :: g in plan && (name == nameOf(g) || name == nameOf(g) + RETRY)
  {
    (set i | 0 <= i < |plan| :: nameOf(plan[i])) + (set i | 0 <= i < |plan| :: nameOf(plan[i]) + RETRY)
  }

  function Min(a: int, b: int): int {
    if a < b then a else b
  }

  // The names of the newest owned caches, as many as are to be kept.
  function NewestNames(caches: seq<Item>, keep: int): set<string> {
    var order := NewestFirst(OwnedOf(caches));
    Names(order[..Max(0, Min(keep, |order|))])
  }

  function Max(a: int, b: int): int {
    if a < b then b else a
  }

  // Ours, on no list, and not one that preparing the plan would look up.
  ghost predicate Unneeded(c: Item, plan: seq<Group>, nameOf: Group -> string, admission: set<string>,
                           inUse: set<Image>) {
    && c.owned && !c.deleting && c.images * inUse == {} && !(c.id.Some? && c.id.value in admission)
    && forall g :: g in plan ==> c.name != nameOf(g) && c.name != nameOf(g) + RETRY
  }

  lemma ExpendableIsUnneeded(c: Item, n: Needs, plan: seq<Group>, nameOf: Group -> string)
    requires n.planned == PlannedNames(plan, nameOf)
    ensures c.owned && Why(c, n).Expendable? <==> Unneeded(c, plan, nameOf, n.admission, n.inUse) && c.name !in n.newest
  {
  }

  lemma NamesOfPrefix(s: seq<Item>, top: nat)
    requires top <= |s|
    ensures forall i :: 0 <= i < top ==> s[i].name in Names(s[..top])
  {
  }

  lemma OrderIsOwned(caches: seq<Item>)
    ensures var order := NewestFirst(OwnedOf(caches));
      Sorted(order) && |order| == |OwnedOf(caches)| && forall c :: c in order <==> c in caches && c.owned
  {
    var owned := OwnedOf(caches);
    var order := NewestFirst(owned);
    NewestFirstSorts(owned);
    assert |order| == |multiset(order)| == |owned|;
    forall c ensures c in order <==> c in owned {
      assert c in multiset(order) <==> c in multiset(owned);
    }
  }

  method SelectToRetire(caches: seq<Item>, plan: seq<Group>, nameOf: Group -> string, admission: set<string>,
                        inUse: set<Image>, keep: int)
    returns (r: Option<Selection>)
    ensures r.Some? <==> 6 <= keep <= 48 && forall c :: c in caches && c.owned ==> c.legible
    // Every cache is counted once.
    ensures r.Some? ==> r.value.owned == |OwnedOf(caches)| && r.value.owned + r.value.foreign == |caches|
    ensures r.Some? ==> var k := r.value.kept;
      |r.value.retire| + k.plan + k.admission + k.inUse + k.deleting + k.newest == r.value.owned
    // As many as asked for survive.
    ensures r.Some? ==> |r.value.retire| <= r.value.owned - Min(keep, r.value.owned)
    // Nothing that is still needed goes.
    ensures r.Some? ==> forall c :: c in r.value.retire ==> c in caches && Unneeded(c, plan, nameOf, admission, inUse)
    // Nothing else stays.
    ensures r.Some? ==> forall c ::
      c in caches && Unneeded(c, plan, nameOf, admission, inUse) && c.name !in NewestNames(caches, keep) ==>
        c in r.value.retire
    // The oldest go first.
    ensures r.Some? ==> forall i, j :: 0 <= i < j < |r.value.retire| ==> NotOlder(r.value.retire[j], r.value.retire[i])
  {
    if !(6 <= keep <= 48) || exists c :: c in OwnedOf(caches) && !c.legible { return None; }
    var order := NewestFirst(OwnedOf(caches));
    OrderIsOwned(caches);
    var top := Min(keep, |order|);
    var n := Needs(PlannedNames(plan, nameOf), admission, inUse, NewestNames(caches, keep));
    var retire, kept := Sift(order, n);
    CountsAddUp(order, n);
    NamesOfPrefix(order, top);
    NewestSurvive(order, top, n);
    forall c: Item
      ensures c.owned && Why(c, n).Expendable? <==>
        Unneeded(c, plan, nameOf, admission, inUse) && c.name !in n.newest
    {
      ExpendableIsUnneeded(c, n, plan, nameOf);
    }
    r := Some(Selection(retire, kept, |order|, |caches| - |order|));
  }

  // No run that prepares the plan ever looks up, or creates, a cache that may be retired for it.
  lemma {:induction false} RetiredIsNeverLookedUp(workers: nat, c: Config, steps: seq<Step>, item: Item,
                                                  admission: set<string>, inUse: set<Image>)
    requires Possible(Begun(workers), c, steps) && Unneeded(item, c.groups, c.nameOf, admission, inUse)
    ensures var calls := After(Begun(workers), c, steps).calls;
      forall k :: 0 <= k < |calls| ==> calls[k].name != item.name
  {
    PoolIsSafe(workers, c, steps);
    var calls := After(Begun(workers), c, steps).calls;
    forall k | 0 <= k < |calls| ensures calls[k].name != item.name {
      assert Planned(c, calls[k].name);
      var i :| 0 <= i < |c.groups| && NamesGroup(c.nameOf, c.groups[i], calls[k].name);
      assert c.groups[i] in c.groups;
    }
  }
}
