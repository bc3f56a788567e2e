/**
 Confluence of the concurrent dispatch: however the steps of the main loop and of the workers interleave, the cache
 and the posts end up as if one worker had handled the events one by one in the order of their arrival.

 No handler is atomic here: the cache lookup, every driver call and the final cache write are steps of their own.
 The proof gives each queue a zone of the world, its cache keys and its response ids, which no other worker reads
 or writes.
 */
module Confluence {
  import opened Text
  import opened Messages
  import opened Actions
  import opened Reconcile
  import Runs
  import opened Dispatch

  // ---- What an event can touch ----

  /** The cache keys an event's handler can look up or store. */
  function Touches(e: MessageEvent): set<MsgId> {
    match KindOf(e)
    case New => {e.OwnId()}
    case Changed => {e.OriginalId(), e.OwnId()}
    case Deleted => {e.DeletedId()}
    case Ignored => {}
  }

  function IdsAt(script: Script, i: nat): set<MsgId> {
    (if script.sends(i).Trackable() then {script.sends(i).id} else {})
    + if script.updates(i).Moved? then {script.updates(i).id} else {}
  }

  /** The ids the driver can hand out while an event is handled. */
  function NewIds(bot: Bot, e: MessageEvent, script: Script): set<MsgId> {
    if KindOf(e).New? || KindOf(e).Changed? then
      set i, id | 0 <= i < |Routed(bot, e)| && id in IdsAt(script, i) :: id
    else {}
  }

  /** A part of the world: cache keys and response ids. */
  datatype Zone = Zone(keys: set<MsgId>, ids: set<MsgId>)

  ghost predicate Covers(z: Zone, bot: Bot, e: MessageEvent, script: Script) {
    Touches(e) <= z.keys && NewIds(bot, e, script) <= z.ids
  }

  ghost predicate SamePosts(ids: set<MsgId>, posts: Posts, posts': Posts) {
    forall id <- ids :: (id in posts <==> id in posts') && (id in posts ==> posts[id] == posts'[id])
  }

  ghost predicate SameEntries(keys: set<MsgId>, cache: Cache, cache': Cache) {
    forall k <- keys :: (k in cache <==> k in cache') && (k in cache ==> cache[k] == cache'[k])
  }

  ghost predicate Agree(z: Zone, w: World, w': World) {
    SameEntries(z.keys, w.cache, w'.cache) && SamePosts(z.ids, w.posts, w'.posts)
  }

  /** Nothing outside the zone differs. */
  ghost predicate AgreeElsewhere(z: Zone, w: World, w': World) {
    && SameEntries(w.cache.Keys + w'.cache.Keys - z.keys, w.cache, w'.cache)
    && SamePosts(w.posts.Keys + w'.posts.Keys - z.ids, w.posts, w'.posts)
  }

  /** The entries under the zone's keys name the zone's ids only. */
  ghost predicate Closed(z: Zone, w: World) {
    forall k <- z.keys :: k in w.cache ==> w.cache[k].Values <= z.ids
  }

  /** A job that stays within a zone. */
  ghost predicate Local(job: Job, z: Zone) {
    && job.key in z.keys && job.stale.Values <= z.ids && job.kept.Values <= z.ids
    && (forall i: nat | i < |job.outs| :: IdsAt(job.script, i) <= z.ids)
  }

  // ---- Jobs stay within their zone, and see nothing else ----

  lemma AnswerOneLocal(p: Progress, z: Zone)
    requires Answering(p.job) && Local(p.job, z)
    ensures Local(AnswerOne(p).job, z)
    ensures SamePosts(p.posts.Keys + AnswerOne(p).posts.Keys - z.ids, p.posts, AnswerOne(p).posts)
  {
    var a := p.job.outs[p.job.at].pluginActionId;
    assert IdsAt(p.job.script, p.job.at) <= z.ids;
    if a in p.job.stale {
      assert p.job.stale[a] in p.job.stale.Values;
    }
  }

  lemma AnswerOneAgree(p: Progress, p': Progress, z: Zone)
    requires Answering(p.job) && p'.job == p.job && Local(p.job, z) && SamePosts(z.ids, p.posts, p'.posts)
    ensures AnswerOne(p').job == AnswerOne(p).job && SamePosts(z.ids, AnswerOne(p).posts, AnswerOne(p').posts)
  {
    var a := p.job.outs[p.job.at].pluginActionId;
    if a in p.job.stale {
      assert p.job.stale[a] in p.job.stale.Values;
    }
  }

  lemma {:induction false} AnswerAllLocal(p: Progress, z: Zone)
    requires p.job.at <= |p.job.outs| && Local(p.job, z)
    ensures Local(AnswerAll(p).job, z)
    ensures SamePosts(p.posts.Keys + AnswerAll(p).posts.Keys - z.ids, p.posts, AnswerAll(p).posts)
    decreases |p.job.outs| - p.job.at
  {
    if Answering(p.job) {
      AnswerOneLocal(p, z);
      AnswerAllLocal(AnswerOne(p), z);
    }
  }

  lemma {:induction false} AnswerAllAgree(p: Progress, p': Progress, z: Zone)
    requires p.job.at <= |p.job.outs| && p'.job == p.job && Local(p.job, z) && SamePosts(z.ids, p.posts, p'.posts)
    ensures AnswerAll(p').job == AnswerAll(p).job && SamePosts(z.ids, AnswerAll(p).posts, AnswerAll(p').posts)
    decreases |p.job.outs| - p.job.at
  {
    if Answering(p.job) {
      AnswerOneLocal(p, z);
      AnswerOneAgree(p, p', z);
      AnswerAllAgree(AnswerOne(p), AnswerOne(p'), z);
    }
  }

  lemma RetractAllLocal(posts: Posts, stale: Entry, script: Script, z: Zone)
    requires stale.Values <= z.ids
    ensures SamePosts(posts.Keys + RetractAll(posts, stale, script).Keys - z.ids,
                      posts, RetractAll(posts, stale, script))
  {
    forall id <- posts | id !in z.ids
      ensures Uses(stale, id) == 0
    {
      assert (set a | a in stale && stale[a] == id) == {};
    }
  }

  lemma CompleteAgree(job: Job, w: World, w': World, z: Zone)
    requires job.at <= |job.outs| && Local(job, z) && Agree(z, w, w')
    ensures Agree(z, Complete(job, w), Complete(job, w'))
  {
    AnswerAllAgree(Progress(job, w.posts), Progress(job, w'.posts), z);
  }

  lemma CompleteElsewhere(job: Job, w: World, z: Zone)
    requires job.at <= |job.outs| && Local(job, z)
    ensures AgreeElsewhere(z, w, Complete(job, w))
  {
    var p := Progress(job, w.posts);
    AnswerAllLocal(p, z);
    Runs.AnswerAllFrame(p);
    RetractAllLocal(AnswerAll(p).posts, AnswerAll(p).job.stale, job.script, z);
  }

  lemma CompleteClosed(job: Job, w: World, z: Zone)
    requires job.at <= |job.outs| && Local(job, z) && Closed(z, w)
    ensures Closed(z, Complete(job, w))
  {
    AnswerAllLocal(Progress(job, w.posts), z);
    Runs.AnswerAllFrame(Progress(job, w.posts));
  }

  lemma StartLocal(bot: Bot, w: World, e: MessageEvent, script: Script, z: Zone)
    requires Covers(z, bot, e, script) && Closed(z, w)
    ensures var job := Start(bot, w.cache, e, script); job.Some? ==> Local(job.value, z)
  {
    var job := Start(bot, w.cache, e, script);
    if job.Some? {
      forall i: nat | i < |job.value.outs|
        ensures IdsAt(script, i) <= z.ids
      {
        assert IdsAt(script, i) <= NewIds(bot, e, script);
      }
    }
  }

  lemma HandleAgree(bot: Bot, w: World, w': World, e: MessageEvent, script: Script, z: Zone)
    requires Covers(z, bot, e, script) && Closed(z, w) && Agree(z, w, w')
    ensures Start(bot, w'.cache, e, script) == Start(bot, w.cache, e, script)
    ensures Agree(z, Handle(bot, w, e, script), Handle(bot, w', e, script))
  {
    var job := Start(bot, w.cache, e, script);
    StartLocal(bot, w, e, script, z);
    if job.Some? {
      CompleteAgree(job.value, w, w', z);
    }
  }

  lemma HandleElsewhere(bot: Bot, w: World, e: MessageEvent, script: Script, z: Zone)
    requires Covers(z, bot, e, script) && Closed(z, w)
    ensures AgreeElsewhere(z, w, Handle(bot, w, e, script)) && Closed(z, Handle(bot, w, e, script))
  {
    var job := Start(bot, w.cache, e, script);
    StartLocal(bot, w, e, script, z);
    if job.Some? {
      CompleteElsewhere(job.value, w, z);
      CompleteClosed(job.value, w, z);
    }
  }

  /** What happens in one zone does not show in a disjoint one. */
  lemma ElsewhereAgrees(z: Zone, other: Zone, w: World, w': World)
    requires z.keys !! other.keys && z.ids !! other.ids && AgreeElsewhere(z, w, w')
    ensures Agree(other, w, w')
    ensures Closed(other, w) ==> Closed(other, w')
  {
    forall k <- other.keys
      ensures (k in w.cache <==> k in w'.cache) && (k in w.cache ==> w.cache[k] == w'.cache[k])
    {
      assert k in w.cache.Keys + w'.cache.Keys ==> k in w.cache.Keys + w'.cache.Keys - z.keys;
    }
    forall id <- other.ids
      ensures (id in w.posts <==> id in w'.posts) && (id in w.posts ==> w.posts[id] == w'.posts[id])
    {
      assert id in w.posts.Keys + w'.posts.Keys ==> id in w.posts.Keys + w'.posts.Keys - z.ids;
    }
  }

  // ---- The zones of a plan ----

  /** Everything the events of one queue can touch. */
  ghost function ZoneOf(plan: Plan, p: nat): Zone {
    Zone(set k, key | 0 <= k < |plan.events| && plan.PartitionOf(k) == p && key in Touches(plan.events[k]) :: key,
         set k, id | 0 <= k < |plan.events| && plan.PartitionOf(k) == p
                     && id in NewIds(plan.bot, plan.events[k], plan.scripts(k)) :: id)
  }

  /** Events of different queues touch different messages, and the driver gives them different ids. */
  ghost predicate Aligned(plan: Plan) {
    forall j, k | 0 <= j < |plan.events| && 0 <= k < |plan.events| && plan.PartitionOf(j) != plan.PartitionOf(k) ::
      && Touches(plan.events[j]) !! Touches(plan.events[k])
      && NewIds(plan.bot, plan.events[j], plan.scripts(j)) !! NewIds(plan.bot, plan.events[k], plan.scripts(k))
  }

  lemma ZonesDisjoint(plan: Plan, p: nat, q: nat)
    requires Aligned(plan) && p != q
    ensures ZoneOf(plan, p).keys !! ZoneOf(plan, q).keys && ZoneOf(plan, p).ids !! ZoneOf(plan, q).ids
  {
  }

  lemma ZoneCovers(plan: Plan, k: nat)
    requires k < |plan.events|
    ensures Covers(ZoneOf(plan, plan.PartitionOf(k)), plan.bot, plan.events[k], plan.scripts(k))
  {
  }

  ghost predicate KnownKey(plan: Plan, k: MsgId) {
    exists p :: 0 <= p < plan.count && k in ZoneOf(plan, p).keys
  }

  ghost predicate KnownId(plan: Plan, id: MsgId) {
    exists p :: 0 <= p < plan.count && id in ZoneOf(plan, p).ids
  }

  /** The world has nothing outside the zones. */
  ghost predicate Within(plan: Plan, w: World) {
    && (forall k <- w.cache :: KnownKey(plan, k))
    && (forall id <- w.posts :: KnownId(plan, id))
  }

  ghost predicate AllClosed(plan: Plan, w: World) {
    Within(plan, w) && forall p | 0 <= p < plan.count :: Closed(ZoneOf(plan, p), w)
  }

  /** A change within one zone. */
  lemma LocalChange(plan: Plan, w: World, w': World, q: nat)
    requires Aligned(plan) && q < plan.count && AllClosed(plan, w)
    requires AgreeElsewhere(ZoneOf(plan, q), w, w') && Closed(ZoneOf(plan, q), w')
    ensures AllClosed(plan, w')
    ensures forall p | 0 <= p < plan.count && p != q :: Agree(ZoneOf(plan, p), w, w')
  {
    var z := ZoneOf(plan, q);
    forall p | 0 <= p < plan.count && p != q
      ensures Agree(ZoneOf(plan, p), w, w') && Closed(ZoneOf(plan, p), w')
    {
      ZonesDisjoint(plan, q, p);
      ElsewhereAgrees(z, ZoneOf(plan, p), w, w');
    }
    forall k <- w'.cache
      ensures KnownKey(plan, k)
    {
      assert k in z.keys || k in w.cache.Keys + w'.cache.Keys - z.keys;
    }
    forall id <- w'.posts
      ensures KnownId(plan, id)
    {
      assert id in z.ids || id in w.posts.Keys + w'.posts.Keys - z.ids;
    }
  }

  lemma SameAt(plan: Plan, w: World, w': World, k: MsgId)
    requires forall p | 0 <= p < plan.count :: Agree(ZoneOf(plan, p), w, w')
    ensures KnownKey(plan, k) ==>
      (k in w.cache <==> k in w'.cache) && (k in w.cache ==> w.cache[k] == w'.cache[k])
    ensures KnownId(plan, k) ==>
      (k in w.posts <==> k in w'.posts) && (k in w.posts ==> w.posts[k] == w'.posts[k])
  {
    if KnownKey(plan, k) {
      var p :| 0 <= p < plan.count && k in ZoneOf(plan, p).keys;
      assert Agree(ZoneOf(plan, p), w, w');
    }
    if KnownId(plan, k) {
      var p :| 0 <= p < plan.count && k in ZoneOf(plan, p).ids;
      assert Agree(ZoneOf(plan, p), w, w');
    }
  }

  ghost predicate SameFor(w: World, w': World, k: MsgId) {
    && (k in w.cache <==> k in w'.cache) && (k in w.cache ==> w.cache[k] == w'.cache[k])
    && (k in w.posts <==> k in w'.posts) && (k in w.posts ==> w.posts[k] == w'.posts[k])
  }

  lemma SameForAll(w: World, w': World)
    requires forall k :: SameFor(w, w', k)
    ensures w == w'
  {
    forall k
      ensures k in w.cache <==> k in w'.cache
      ensures k in w.cache && k in w'.cache ==> w.cache[k] == w'.cache[k]
      ensures k in w.posts <==> k in w'.posts
      ensures k in w.posts && k in w'.posts ==> w.posts[k] == w'.posts[k]
    {
      assert SameFor(w, w', k);
    }
    assert w.cache == w'.cache && w.posts == w'.posts;
  }

  /** Worlds with nothing outside the zones that agree on every zone are equal. */
  lemma AgreeEverywhere(plan: Plan, w: World, w': World)
    requires Within(plan, w) && Within(plan, w')
    requires forall p | 0 <= p < plan.count :: Agree(ZoneOf(plan, p), w, w')
    ensures w == w'
  {
    forall k: MsgId
      ensures SameFor(w, w', k)
    {
      SameAt(plan, w, w', k);
    }
    SameForAll(w, w');
  }

  // ---- One queue at a time ----

  /** The world after the listed events, one by one. */
  ghost function Fold(plan: Plan, ks: seq<nat>): World {
    if ks == [] then World(map[], map[])
    else
      var before, k := Fold(plan, ks[..|ks| - 1]), ks[|ks| - 1];
      if k < |plan.events| then Handle(plan.bot, before, plan.events[k], plan.scripts(k)) else before
  }

  /** The sequential bot: the first n events in the order of their arrival. */
  ghost function Sequential(plan: Plan, n: nat): World
    requires n <= |plan.events|
  {
    if n == 0 then World(map[], map[])
    else Handle(plan.bot, Sequential(plan, n - 1), plan.events[n - 1], plan.scripts(n - 1))
  }

  lemma HandleOwn(plan: Plan, w: World, k: nat)
    requires plan.Valid() && Aligned(plan) && k < |plan.events| && AllClosed(plan, w)
    ensures var w' := Handle(plan.bot, w, plan.events[k], plan.scripts(k));
      && AllClosed(plan, w')
      && forall p | 0 <= p < plan.count && p != plan.PartitionOf(k) :: Agree(ZoneOf(plan, p), w, w')
  {
    var q := plan.PartitionOf(k);
    ZoneCovers(plan, k);
    HandleElsewhere(plan.bot, w, plan.events[k], plan.scripts(k), ZoneOf(plan, q));
    LocalChange(plan, w, Handle(plan.bot, w, plan.events[k], plan.scripts(k)), q);
  }

  lemma {:induction false} SequentialClosed(plan: Plan, n: nat)
    requires plan.Valid() && Aligned(plan) && n <= |plan.events|
    ensures AllClosed(plan, Sequential(plan, n))
  {
    if n > 0 {
      SequentialClosed(plan, n - 1);
      HandleOwn(plan, Sequential(plan, n - 1), n - 1);
    }
  }

  lemma FoldLast(plan: Plan, before: seq<nat>, k: nat)
    requires k < |plan.events|
    ensures Fold(plan, before + [k]) == Handle(plan.bot, Fold(plan, before), plan.events[k], plan.scripts(k))
  {
    assert (before + [k])[..|before|] == before;
  }

  lemma AgreeAfter(plan: Plan, w: World, ks: seq<nat>, k: nat, p: nat)
    requires plan.Valid() && Aligned(plan) && k < |plan.events| && p < plan.count
    requires AllClosed(plan, w) && Agree(ZoneOf(plan, p), w, Fold(plan, ks))
    ensures Agree(ZoneOf(plan, p), Handle(plan.bot, w, plan.events[k], plan.scripts(k)),
                  Fold(plan, ks + if plan.PartitionOf(k) == p then [k] else []))
  {
    if plan.PartitionOf(k) == p {
      ZoneCovers(plan, k);
      FoldLast(plan, ks, k);
      HandleAgree(plan.bot, w, Fold(plan, ks), plan.events[k], plan.scripts(k), ZoneOf(plan, p));
    } else {
      FoldOther(plan, w, Fold(plan, ks), k, p);
      assert ks + [] == ks;
    }
  }

  ghost predicate InStep(plan: Plan, p: nat, n: nat) {
    n <= |plan.events| && Agree(ZoneOf(plan, p), Sequential(plan, n), Fold(plan, Arrived(plan, n, p)))
  }

  lemma StaysInStep(plan: Plan, p: nat, k: nat)
    requires plan.Valid() && Aligned(plan) && k < |plan.events| && p < plan.count && InStep(plan, p, k)
    ensures InStep(plan, p, k + 1)
  {
    SequentialClosed(plan, k);
    AgreeAfter(plan, Sequential(plan, k), Arrived(plan, k, p), k, p);
  }

  lemma StartsInStep(plan: Plan, p: nat)
    ensures InStep(plan, p, 0)
  {
    assert Sequential(plan, 0) == Fold(plan, Arrived(plan, 0, p));
  }

  ghost predicate NextInStep(plan: Plan, p: nat, k: nat) {
    InStep(plan, p, k) ==> InStep(plan, p, k + 1)
  }

  lemma StaysInStepTo(plan: Plan, p: nat, n: nat)
    requires plan.Valid() && Aligned(plan) && n <= |plan.events| && p < plan.count
    ensures forall k: nat | k < n :: NextInStep(plan, p, k)
  {
    forall k: nat | k < n
      ensures NextInStep(plan, p, k)
    {
      if InStep(plan, p, k) {
        StaysInStep(plan, p, k);
      }
    }
  }

  lemma {:induction false} AllInStep(plan: Plan, p: nat, n: nat)
    requires forall k: nat | k < n :: NextInStep(plan, p, k)
    ensures InStep(plan, p, n)
  {
    if n == 0 {
      StartsInStep(plan, p);
    } else {
      var k: nat := n - 1;
      AllInStep(plan, p, k);
      assert NextInStep(plan, p, k);
    }
  }

  /** In the zone of a queue the sequential bot looks as if it had handled the events of that queue only. */
  lemma SequentialByQueue(plan: Plan, n: nat, p: nat)
    requires plan.Valid() && Aligned(plan) && n <= |plan.events| && p < plan.count
    ensures Agree(ZoneOf(plan, p), Sequential(plan, n), Fold(plan, Arrived(plan, n, p)))
  {
    StaysInStepTo(plan, p, n);
    AllInStep(plan, p, n);
  }

  lemma FoldOther(plan: Plan, w: World, f: World, k: nat, p: nat)
    requires plan.Valid() && Aligned(plan) && k < |plan.events| && p < plan.count && p != plan.PartitionOf(k)
    requires AllClosed(plan, w) && Agree(ZoneOf(plan, p), w, f)
    ensures Agree(ZoneOf(plan, p), Handle(plan.bot, w, plan.events[k], plan.scripts(k)), f)
  {
    HandleOwn(plan, w, k);
    var w' := Handle(plan.bot, w, plan.events[k], plan.scripts(k));
    AgreeSymmetric(ZoneOf(plan, p), w, w');
    AgreeTransitive(ZoneOf(plan, p), w', w, f);
  }

  /** Handling the events that a zone covers posts nothing outside it. */
  lemma {:induction false} FoldWithin(plan: Plan, ks: seq<nat>, z: Zone)
    requires forall k <- ks :: k < |plan.events| && Covers(z, plan.bot, plan.events[k], plan.scripts(k))
    ensures Closed(z, Fold(plan, ks)) && Fold(plan, ks).posts.Keys <= z.ids
  {
    if ks != [] {
      var before, k := ks[..|ks| - 1], ks[|ks| - 1];
      FoldWithin(plan, before, z);
      assert k in ks;
      HandleElsewhere(plan.bot, Fold(plan, before), plan.events[k], plan.scripts(k), z);
      WithinStays(z, Fold(plan, before), Fold(plan, ks));
    }
  }

  lemma ZoneCoversAll(plan: Plan, ks: seq<nat>, p: nat)
    requires Mine(plan, ks, p)
    ensures forall k <- ks :: k < |plan.events| && Covers(ZoneOf(plan, p), plan.bot, plan.events[k], plan.scripts(k))
  {
    forall k <- ks
      ensures k < |plan.events| && Covers(ZoneOf(plan, p), plan.bot, plan.events[k], plan.scripts(k))
    {
      ZoneCovers(plan, k);
    }
  }

  lemma WithinStays(z: Zone, w: World, w': World)
    requires AgreeElsewhere(z, w, w') && w.posts.Keys <= z.ids
    ensures w'.posts.Keys <= z.ids
  {
    forall id <- w'.posts.Keys
      ensures id in z.ids
    {
      assert id in w.posts.Keys + w'.posts.Keys - z.ids ==> id in w.posts;
    }
  }

  // ---- The invariant of a run ----

  /** In its zone a queue's worker, once its current handler is done, is where the sequential handling leads. */
  ghost predicate OnTrack(plan: Plan, s: State, p: nat) {
    && p < |s.workers| == |s.handled|
    && var z, w := ZoneOf(plan, p), s.workers[p];
       if w.Working? then
         && w.k < |plan.events| && w.job.at <= |w.job.outs| && Local(w.job, z)
         && Agree(z, Complete(w.job, s.world), Fold(plan, s.handled[p] + [w.k]))
       else Agree(z, s.world, Fold(plan, s.handled[p]))
  }

  ghost predicate WorldInv(plan: Plan, s: State) {
    Orderly(plan, s) && AllClosed(plan, s.world) && forall p | 0 <= p < plan.count :: OnTrack(plan, s, p)
  }

  lemma AgreeTransitive(z: Zone, w1: World, w2: World, w3: World)
    requires Agree(z, w1, w2) && Agree(z, w2, w3)
    ensures Agree(z, w1, w3)
  {
  }

  lemma AgreeSymmetric(z: Zone, w1: World, w2: World)
    requires Agree(z, w1, w2)
    ensures Agree(z, w2, w1)
  {
  }

  /** A worker stays on track while another one, or the main loop, takes a step. */
  lemma OthersStayOnTrack(plan: Plan, s: State, s': State, p: nat)
    requires OnTrack(plan, s, p) && Agree(ZoneOf(plan, p), s.world, s'.world)
    requires p < |s'.workers| == |s'.handled| && s'.handled[p] == s.handled[p]
    requires s'.workers[p] == s.workers[p] || (!s'.workers[p].Working? && !s.workers[p].Working?)
    ensures OnTrack(plan, s', p)
  {
    var z, w := ZoneOf(plan, p), s.workers[p];
    AgreeSymmetric(z, s.world, s'.world);
    if w.Working? {
      CompleteAgree(w.job, s'.world, s.world, z);
      AgreeTransitive(z, Complete(w.job, s'.world), Complete(w.job, s.world), Fold(plan, s.handled[p] + [w.k]));
    } else {
      AgreeTransitive(z, s'.world, s.world, Fold(plan, s.handled[p]));
    }
  }

  lemma BeginStaysOnTrack(plan: Plan, s: State, p: nat)
    requires Aligned(plan) && WorldInv(plan, s) && Enabled(plan, s, Begin(p))
    ensures OnTrack(plan, Next(plan, s, Begin(p)), p)
  {
    assert Sane(plan, s, p) && OnTrack(plan, s, p);
    var k, z, handled := s.workers[p].k, ZoneOf(plan, p), s.handled[p];
    assert k in InHand(s.workers[p]);
    var e, script := plan.events[k], plan.scripts(k);
    ZoneCovers(plan, k);
    HandleAgree(plan.bot, s.world, Fold(plan, handled), e, script, z);
    StartLocal(plan.bot, s.world, e, script, z);
    assert (handled + [k])[..|handled|] == handled;
    assert Fold(plan, handled + [k]) == Handle(plan.bot, Fold(plan, handled), e, script);
  }

  /** A driver call brings a handler closer to the same end, within its zone. */
  lemma CallKeepsComplete(plan: Plan, s: State, step: Step, p: nat, z: Zone)
    requires Shape(plan, s) && Enabled(plan, s, step)
    requires step == AnswerNext(p) || exists a :: step == RetractNext(p, a)
    requires Local(s.workers[p].job, z) && s.workers[p].job.at <= |s.workers[p].job.outs|
    ensures var s' := Next(plan, s, step);
      && s'.workers[p].Working? && s'.workers[p].k == s.workers[p].k
      && s'.workers[p].job.at <= |s'.workers[p].job.outs|
      && Local(s'.workers[p].job, z)
      && Complete(s'.workers[p].job, s'.world) == Complete(s.workers[p].job, s.world)
      && s'.world.cache == s.world.cache
      && SamePosts(s.world.posts.Keys + s'.world.posts.Keys - z.ids, s.world.posts, s'.world.posts)
  {
    var job := s.workers[p].job;
    if step.AnswerNext? {
      AnswerOneLocal(Progress(job, s.world.posts), z);
    } else {
      assert job.stale[step.action] in job.stale.Values;
    }
    CallCompletes(plan, s, step, p);
  }

  /** A step of the worker of one queue that changes the world or begins a handler. */
  lemma WorkerStep(plan: Plan, s: State, s': State, q: nat)
    requires Aligned(plan) && WorldInv(plan, s) && Orderly(plan, s') && q < plan.count
    requires OnTrack(plan, s', q)
    requires AgreeElsewhere(ZoneOf(plan, q), s.world, s'.world) && Closed(ZoneOf(plan, q), s'.world)
    requires forall p | 0 <= p < plan.count && p != q :: s'.workers[p] == s.workers[p] && s'.handled[p] == s.handled[p]
    ensures WorldInv(plan, s')
  {
    LocalChange(plan, s.world, s'.world, q);
    forall p | 0 <= p < plan.count
      ensures OnTrack(plan, s', p)
    {
      if p != q {
        assert OnTrack(plan, s, p);
        OthersStayOnTrack(plan, s, s', p);
      }
    }
  }

  /** Any other step. */
  lemma QuietStep(plan: Plan, s: State, s': State)
    requires WorldInv(plan, s) && Orderly(plan, s') && s'.world == s.world && s'.handled == s.handled
    requires forall p | 0 <= p < plan.count ::
      s'.workers[p] == s.workers[p] || (!s'.workers[p].Working? && !s.workers[p].Working?)
    ensures WorldInv(plan, s')
  {
    forall p | 0 <= p < plan.count
      ensures OnTrack(plan, s', p)
    {
      assert OnTrack(plan, s, p);
      OthersStayOnTrack(plan, s, s', p);
    }
  }

  lemma CallStep(plan: Plan, s: State, step: Step, p: nat)
    requires Aligned(plan) && WorldInv(plan, s) && Enabled(plan, s, step)
    requires step == AnswerNext(p) || exists a :: step == RetractNext(p, a)
    ensures WorldInv(plan, Next(plan, s, step))
  {
    assert OnTrack(plan, s, p);
    CallKeepsComplete(plan, s, step, p, ZoneOf(plan, p));
    NextKeepsInv(plan, s, step);
    WorkerStep(plan, s, Next(plan, s, step), p);
  }

  lemma StoreStep(plan: Plan, s: State, p: nat)
    requires Aligned(plan) && WorldInv(plan, s) && Enabled(plan, s, Store(p))
    ensures WorldInv(plan, Next(plan, s, Store(p)))
  {
    assert OnTrack(plan, s, p);
    StoreCompletes(plan, s, p);
    CompleteElsewhere(s.workers[p].job, s.world, ZoneOf(plan, p));
    CompleteClosed(s.workers[p].job, s.world, ZoneOf(plan, p));
    NextKeepsInv(plan, s, Store(p));
    WorkerStep(plan, s, Next(plan, s, Store(p)), p);
  }

  lemma BeginFrame(plan: Plan, s: State, p: nat)
    requires Shape(plan, s) && Enabled(plan, s, Begin(p))
    ensures var s' := Next(plan, s, Begin(p));
      && s'.world == s.world
      && forall q | 0 <= q < plan.count && q != p :: s'.workers[q] == s.workers[q] && s'.handled[q] == s.handled[q]
  {
  }

  lemma BeginStep(plan: Plan, s: State, p: nat)
    requires Aligned(plan) && WorldInv(plan, s) && Enabled(plan, s, Begin(p))
    ensures WorldInv(plan, Next(plan, s, Begin(p)))
  {
    BeginStaysOnTrack(plan, s, p);
    NextKeepsInv(plan, s, Begin(p));
    BeginFrame(plan, s, p);
    WorkerStep(plan, s, Next(plan, s, Begin(p)), p);
  }

  lemma NextKeepsWorldInv(plan: Plan, s: State, step: Step)
    requires Aligned(plan) && WorldInv(plan, s) && Enabled(plan, s, step)
    ensures WorldInv(plan, Next(plan, s, step))
  {
    match step {
      case Begin(p) => BeginStep(plan, s, p);
      case AnswerNext(p) => CallStep(plan, s, step, p);
      case RetractNext(p, a) => CallStep(plan, s, step, p);
      case Store(p) => StoreStep(plan, s, p);
      case _ =>
        NextKeepsInv(plan, s, step);
        QuietStep(plan, s, Next(plan, s, step));
    }
  }

  lemma {:induction false} ExecWorldInv(plan: Plan, s: State, steps: seq<Step>)
    requires Aligned(plan) && WorldInv(plan, s) && Exec(plan, s, steps).Some?
    ensures WorldInv(plan, Exec(plan, s, steps).value)
    decreases |steps|
  {
    if steps != [] {
      NextKeepsWorldInv(plan, s, steps[0]);
      ExecWorldInv(plan, Next(plan, s, steps[0]), steps[1..]);
    }
  }

  lemma ReachableWorldInv(plan: Plan, s: State)
    requires Aligned(plan) && Reachable(plan, s)
    ensures WorldInv(plan, s)
  {
    var steps :| Exec(plan, Init(plan), steps) == Some(s);
    assert Exec(plan, Init(plan), []) == Some(Init(plan));
    ReachableInv(plan, Init(plan));
    assert AllClosed(plan, Init(plan).world);
    forall p | 0 <= p < plan.count
      ensures OnTrack(plan, Init(plan), p)
    {
    }
    ExecWorldInv(plan, Init(plan), steps);
  }

  /** Every complete run of an aligned plan ends where the sequential bot does. */
  lemma Confluent(plan: Plan, s: State)
    requires Aligned(plan) && Reachable(plan, s) && s.main.Returned?
    ensures s.world == Sequential(plan, |plan.events|)
  {
    ReachableWorldInv(plan, s);
    EachHandledOnce(plan, s);
    var sequential := Sequential(plan, |plan.events|);
    forall p | 0 <= p < plan.count
      ensures Agree(ZoneOf(plan, p), s.world, sequential)
    {
      assert Sane(plan, s, p) && OnTrack(plan, s, p);
      SequentialByQueue(plan, |plan.events|, p);
      AgreeSymmetric(ZoneOf(plan, p), sequential, Fold(plan, s.handled[p]));
      AgreeTransitive(ZoneOf(plan, p), s.world, Fold(plan, s.handled[p]), sequential);
    }
    SequentialClosed(plan, |plan.events|);
    AgreeEverywhere(plan, s.world, sequential);
  }

  // ---- Which plans are aligned ----

  /** No deletions; the own id of an event that is about another message is no other event's id. */
  ghost predicate NewAndChanged(plan: Plan) {
    && (forall k | 0 <= k < |plan.events| :: KindOf(plan.events[k]) != Deleted)
    && (forall j, k | 0 <= j < |plan.events| && 0 <= k < |plan.events| && j != k
                      && !KindOf(plan.events[j]).Ignored? && plan.events[j].subMessage.Some? ::
          plan.events[j].OwnId() !in Touches(plan.events[k]))
  }

  /** The driver never hands out the same id while handling different events. */
  ghost predicate DistinctIds(plan: Plan) {
    forall j, k | 0 <= j < |plan.events| && 0 <= k < |plan.events| && j != k ::
      NewIds(plan.bot, plan.events[j], plan.scripts(j)) !! NewIds(plan.bot, plan.events[k], plan.scripts(k))
  }

  lemma NewAndChangedAligned(plan: Plan)
    requires NewAndChanged(plan) && DistinctIds(plan)
    ensures Aligned(plan)
  {
    forall j, k | 0 <= j < |plan.events| && 0 <= k < |plan.events| && plan.PartitionOf(j) != plan.PartitionOf(k)
      ensures Touches(plan.events[j]) !! Touches(plan.events[k])
    {
      assert plan.events[j].OriginalId() != plan.events[k].OriginalId();
    }
  }

  /**
   For any stream of new messages and edits, and any number of queues chosen by the original message id, every run
   that drains the queues ends with the same cache and the same posts as handling the stream one event at a time.
   */
  lemma NewAndChangedConfluent(plan: Plan, s: State)
    requires NewAndChanged(plan) && DistinctIds(plan) && Reachable(plan, s) && s.main.Returned?
    ensures s.world == Sequential(plan, |plan.events|)
  {
    NewAndChangedAligned(plan);
    Confluent(plan, s);
  }

  /** With a single queue that holds of any stream, deletions included. */
  lemma SingleQueueConfluent(plan: Plan, s: State)
    requires plan.count == 1 && Reachable(plan, s) && s.main.Returned?
    ensures s.world == Sequential(plan, |plan.events|)
  {
    Confluent(plan, s);
  }
}
