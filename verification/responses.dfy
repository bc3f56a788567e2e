/**
 What every state of a concurrent run keeps, in the middle of its handlers and whatever the cache evicts meanwhile: no
 response in two cache slots, and no response deleted twice.
 */
module Responses {
  import opened Text
  import opened Messages
  import opened Reconcile
  import opened Dispatch
  import opened Confluence
  import opened Bystanders

  // ---- Runs with evictions ----

  /** The cache may drop entries between any two steps. */
  datatype Move = Act(step: Step) | Evict(keys: set<MsgId>)

  /** A step that can be taken, in which the driver hands out no id a second time. */
  ghost predicate CanMove(plan: Plan, s: State, move: Move)
    requires Shape(plan, s)
  {
    move.Act? ==>
      && Enabled(plan, s, move.step)
      && (move.step.AnswerNext? ==> Runs.HonestOne(Progress(s.workers[move.step.p].job, s.world.posts)))
  }

  ghost function AfterMove(plan: Plan, s: State, move: Move): State
    requires Shape(plan, s) && CanMove(plan, s, move)
  {
    match move
    case Act(step) => Next(plan, s, step)
    case Evict(keys) => s.(world := s.world.(cache := s.world.cache - keys))
  }

  ghost function Run(plan: Plan, s: State, moves: seq<Move>): Option<State>
    decreases |moves|
  {
    if moves == [] then Some(s)
    else if Shape(plan, s) && CanMove(plan, s, moves[0]) then Run(plan, AfterMove(plan, s, moves[0]), moves[1..])
    else None
  }

  ghost predicate HonestlyReachable(plan: Plan, s: State) {
    plan.Valid() && exists moves :: Run(plan, Init(plan), moves) == Some(s)
  }

  /** Events of different queues touch different messages. */
  ghost predicate KeysApart(plan: Plan) {
    forall j, k | 0 <= j < |plan.events| && 0 <= k < |plan.events| && plan.PartitionOf(j) != plan.PartitionOf(k) ::
      Touches(plan.events[j]) !! Touches(plan.events[k])
  }

  // ---- What a state keeps ----

  predicate Claims(s: State, p: int, key: MsgId) {
    0 <= p < |s.workers| && s.workers[p].Working? && s.workers[p].job.sweeping && s.workers[p].job.key == key
  }

  /** A handler that began with the cached responses to this message is at work. */
  ghost predicate InProgress(s: State, key: MsgId) {
    exists p :: Claims(s, p, key)
  }

  /** Each action of an entry has a response of its own, which the driver posted. */
  ghost predicate IsEntry(entry: Entry, posts: Posts) {
    && entry != map[]
    && (forall a <- entry :: entry[a] in posts)
    && (forall a <- entry, b <- entry :: entry[a] == entry[b] ==> a == b)
  }

  /**
   No response is in two slots of the cache, none is deleted twice, and one that is deleted is cached only while the
   handler that deletes it is at work.
   */
  ghost predicate KeepsResponses(s: State) {
    && (forall k <- s.world.cache :: IsEntry(s.world.cache[k], s.world.posts))
    && (forall k1 <- s.world.cache, k2 <- s.world.cache ::
          k1 != k2 ==> Runs.Apart(s.world.cache[k1], s.world.cache[k2]))
    && Runs.DeletedAtMostOnce(s.world.posts)
    && (forall k <- s.world.cache :: Runs.Sound(s.world.cache[k], s.world.posts) || InProgress(s, k))
  }

  // ---- Who answers for a response ----

  /** A cached response is its entry's, until a handler starts from the entry. */
  datatype Owner = Slot(key: MsgId) | Handler(p: nat)

  ghost function Owned(s: State, owner: Owner): set<MsgId> {
    match owner
    case Slot(key) => if InProgress(s, key) then {} else Runs.EntryOf(s.world.cache, key).Values
    case Handler(p) =>
      if p < |s.workers| && s.workers[p].Working? then
        var job := s.workers[p].job;
        job.stale.Values + job.kept.Values
          + if job.sweeping then Runs.EntryOf(s.world.cache, job.key).Values else {}
      else {}
  }

  ghost predicate HasOneOwner(s: State) {
    && (forall x: Owner, y: Owner | x != y :: Owned(s, x) !! Owned(s, y))
    && (forall x: Owner :: Owned(s, x) <= s.world.posts.Keys)
  }

  ghost predicate IsAtWork(plan: Plan, s: State, p: nat)
    requires p < |s.workers| && s.workers[p].Working?
  {
    var w := s.workers[p];
    w.k < |plan.events| && IsJobOf(plan, w.k, w.job) && Runs.JobInv(Progress(w.job, s.world.posts), map[])
  }

  ghost predicate IsKept(s: State, key: MsgId)
    requires key in s.world.cache
  {
    var entry := s.world.cache[key];
    IsEntry(entry, s.world.posts) && (InProgress(s, key) || Runs.Sound(entry, s.world.posts))
  }

  ghost predicate AllKept(plan: Plan, s: State) {
    && Orderly(plan, s) && HasOneOwner(s) && Runs.DeletedAtMostOnce(s.world.posts)
    && (forall p | 0 <= p < |s.workers| && s.workers[p].Working? :: IsAtWork(plan, s, p))
    && (forall key <- s.world.cache :: IsKept(s, key))
  }

  /** The workers start from the entries of different messages. */
  lemma OneHandler(plan: Plan, s: State, p: nat, key: MsgId)
    requires KeysApart(plan) && AllKept(plan, s) && p < plan.count && (s.workers[p].Taken? || s.workers[p].Working?)
    requires s.workers[p].k < |plan.events| && key in Touches(plan.events[s.workers[p].k])
    ensures forall q | 0 <= q < |s.workers| && q != p && s.workers[q].Working? :: s.workers[q].job.key != key
  {
    HeldNotHandled(plan, s, p);
    forall q | 0 <= q < |s.workers| && q != p && s.workers[q].Working?
      ensures s.workers[q].job.key != key
    {
      HeldNotHandled(plan, s, q);
      assert IsAtWork(plan, s, q);
      assert s.workers[q].job.key in Touches(plan.events[s.workers[q].k]);
    }
  }

  // ---- One move ----

  /** A response goes from one owner to another, or comes new to one. */
  lemma OwnersAfter(s: State, s': State, x: Owner, y: Owner)
    requires HasOneOwner(s) && s.world.posts.Keys <= s'.world.posts.Keys
    requires forall z: Owner | z != y :: Owned(s', z) <= Owned(s, z)
    requires Owned(s', y) <= Owned(s, x) + Owned(s, y) + (s'.world.posts.Keys - s.world.posts.Keys)
    requires x != y ==> Owned(s', x) == {}
    ensures HasOneOwner(s')
  {
    forall a: Owner, b: Owner | a != b
      ensures Owned(s', a) !! Owned(s', b)
    {
      var other := if a == y then b else a;
      assert Owned(s, x) !! Owned(s, other) || other == x;
      assert Owned(s, y) !! Owned(s, other) || other == y;
      assert Owned(s, a) !! Owned(s, b);
      assert Owned(s, other) <= s.world.posts.Keys;
    }
    forall z: Owner
      ensures Owned(s', z) <= s'.world.posts.Keys
    {
      assert Owned(s, z) <= s.world.posts.Keys && Owned(s, x) <= s.world.posts.Keys;
    }
  }

  /** Only the deletes of these posts change. */
  ghost predicate DeletesOnly(touched: set<MsgId>, posts: Posts, posts': Posts) {
    forall id <- posts :: id in posts' && (id !in touched ==> posts'[id].deletes == posts[id].deletes)
  }

  lemma EntryStaysKept(entry: Entry, touched: set<MsgId>, posts: Posts, posts': Posts)
    requires DeletesOnly(touched, posts, posts') && IsEntry(entry, posts)
    ensures IsEntry(entry, posts')
    ensures Runs.Sound(entry, posts) && entry.Values !! touched ==> Runs.Sound(entry, posts')
  {
    forall a <- entry
      ensures entry[a] in entry.Values
    {
    }
  }

  lemma WorkStays(job: Job, touched: set<MsgId>, posts: Posts, posts': Posts)
    requires DeletesOnly(touched, posts, posts') && Runs.DeletedAtMostOnce(posts')
    requires Runs.JobInv(Progress(job, posts), map[]) && job.stale.Values + job.kept.Values !! touched
    ensures Runs.JobInv(Progress(job, posts'), map[])
  {
    forall a <- job.stale
      ensures job.stale[a] in job.stale.Values && job.stale[a] !in touched
    {
      assert job.stale[a] in job.stale.Values + job.kept.Values;
    }
    forall a <- job.kept
      ensures job.kept[a] in job.kept.Values && job.kept[a] !in touched
    {
      assert job.kept[a] in job.stale.Values + job.kept.Values;
    }
  }

  /** A handler makes a call. */
  ghost predicate MakesCall(plan: Plan, s: State, s': State, p: nat, touched: set<MsgId>) {
    && OnlyWorker(s, s', p) && s'.world.cache == s.world.cache
    && s.workers[p].Working? && s'.workers[p].Working? && s'.workers[p].k == s.workers[p].k
    && var job, next := s.workers[p].job, s'.workers[p].job;
       && next.key == job.key && next.sweeping == job.sweeping
       && next.stale.Values + next.kept.Values
          <= job.stale.Values + job.kept.Values + (s'.world.posts.Keys - s.world.posts.Keys)
       && touched <= job.stale.Values && DeletesOnly(touched, s.world.posts, s'.world.posts)
  }

  lemma CallKeepsClaims(plan: Plan, s: State, s': State, p: nat, touched: set<MsgId>, key: MsgId)
    requires MakesCall(plan, s, s', p, touched)
    ensures InProgress(s', key) <==> InProgress(s, key)
  {
    if InProgress(s, key) {
      var q :| Claims(s, q, key);
      assert Claims(s', q, key);
    }
    if InProgress(s', key) {
      var q :| Claims(s', q, key);
      assert Claims(s, q, key);
    }
  }

  lemma CallKeepsOwners(plan: Plan, s: State, s': State, p: nat, touched: set<MsgId>)
    requires MakesCall(plan, s, s', p, touched) && HasOneOwner(s)
    ensures HasOneOwner(s')
  {
    forall z: Owner | z != Handler(p)
      ensures Owned(s', z) == Owned(s, z)
    {
      if z.Slot? {
        CallKeepsClaims(plan, s, s', p, touched, z.key);
      } else if z.p < |s.workers| {
        assert s'.workers[z.p] == s.workers[z.p];
      }
    }
    OwnersAfter(s, s', Handler(p), Handler(p));
  }

  lemma CallKeepsWork(plan: Plan, s: State, s': State, p: nat, touched: set<MsgId>, q: nat)
    requires AllKept(plan, s) && MakesCall(plan, s, s', p, touched) && Runs.DeletedAtMostOnce(s'.world.posts)
    requires q < |s'.workers| && q != p && s'.workers[q].Working?
    ensures IsAtWork(plan, s', q)
  {
    assert IsAtWork(plan, s, q) && s'.workers[q] == s.workers[q];
    assert Owned(s, Handler(q)) !! Owned(s, Handler(p));
    WorkStays(s.workers[q].job, touched, s.world.posts, s'.world.posts);
  }

  lemma CallKeepsEntry(plan: Plan, s: State, s': State, p: nat, touched: set<MsgId>, key: MsgId)
    requires AllKept(plan, s) && MakesCall(plan, s, s', p, touched) && key in s'.world.cache
    ensures IsKept(s', key)
  {
    assert IsKept(s, key);
    CallKeepsClaims(plan, s, s', p, touched, key);
    assert Owned(s, Slot(key)) !! Owned(s, Handler(p));
    EntryStaysKept(s.world.cache[key], touched, s.world.posts, s'.world.posts);
  }

  lemma CallKeeps(plan: Plan, s: State, s': State, p: nat, touched: set<MsgId>)
    requires AllKept(plan, s) && Orderly(plan, s') && MakesCall(plan, s, s', p, touched)
    requires IsAtWork(plan, s', p)
    ensures AllKept(plan, s')
  {
    CallKeepsOwners(plan, s, s', p, touched);
    forall q | 0 <= q < |s'.workers| && s'.workers[q].Working?
      ensures IsAtWork(plan, s', q)
    {
      if q != p {
        CallKeepsWork(plan, s, s', p, touched, q);
      }
    }
    forall key <- s'.world.cache
      ensures IsKept(s', key)
    {
      CallKeepsEntry(plan, s, s', p, touched, key);
    }
  }

  /** An answer brings at most a response that the driver never posted before. */
  lemma AnswerBrings(p: Progress)
    requires Answering(p.job) && Runs.HonestOne(p) && Runs.JobInv(p, map[])
    ensures var q := AnswerOne(p);
      && q.job.stale.Values + q.job.kept.Values
         <= p.job.stale.Values + p.job.kept.Values + (q.posts.Keys - p.posts.Keys)
      && Runs.JobInv(q, map[]) && DeletesOnly({}, p.posts, q.posts)
  {
    Runs.AnswerOneKeepsInv(p, map[]);
  }

  /** Deleting a stale response keeps the others apart and undeleted. */
  lemma RetractKeepsInv(p: Progress, others: Cache, a: string)
    requires Runs.JobInv(p, others) && a in p.job.stale
    ensures Runs.JobInv(RetractStep(p, a), others)
  {
    var r, q := p.job.stale[a], RetractStep(p, a);
    assert Runs.Sound(p.job.stale, p.posts);
    forall k <- others
      ensures Runs.Sound(others[k], q.posts) && Runs.Apart(others[k], q.job.stale) && Runs.Apart(others[k], q.job.kept)
    {
      assert Runs.Sound(others[k], p.posts) && Runs.Apart(others[k], p.job.stale);
      assert Runs.Apart(others[k], p.job.kept);
    }
    assert Runs.Sound(q.job.stale, q.posts) && Runs.Sound(q.job.kept, q.posts);
  }

  lemma AnswerKeeps(plan: Plan, s: State, p: nat)
    requires AllKept(plan, s) && CanMove(plan, s, Act(AnswerNext(p)))
    ensures AllKept(plan, Next(plan, s, AnswerNext(p)))
  {
    var step := AnswerNext(p);
    assert IsAtWork(plan, s, p);
    AnswerBrings(Progress(s.workers[p].job, s.world.posts));
    AnswerOneFrame(Progress(s.workers[p].job, s.world.posts));
    CallIsJob(plan, s, step, s.workers[p].k);
    NextKeepsInv(plan, s, step);
    StepView(plan, s, step);
    CallKeeps(plan, s, Next(plan, s, step), p, {});
  }

  lemma RetractKeeps(plan: Plan, s: State, p: nat, a: string)
    requires AllKept(plan, s) && Enabled(plan, s, RetractNext(p, a))
    ensures AllKept(plan, Next(plan, s, RetractNext(p, a)))
  {
    var step, job := RetractNext(p, a), s.workers[p].job;
    assert IsAtWork(plan, s, p);
    assert job.stale[a] in job.stale.Values;
    RetractKeepsInv(Progress(job, s.world.posts), map[], a);
    CallIsJob(plan, s, step, s.workers[p].k);
    NextKeepsInv(plan, s, step);
    StepView(plan, s, step);
    CallKeeps(plan, s, Next(plan, s, step), p, {job.stale[a]});
  }

  /** A handler begins or ends, and nothing is posted. */
  ghost predicate Turns(plan: Plan, s: State, s': State, p: nat) {
    && OnlyWorker(s, s', p) && s'.world.posts == s.world.posts
    && (s.workers[p].Working? != s'.workers[p].Working?)
  }

  /** The key that the worker works under, at the one end or the other. */
  ghost function KeyAt(s: State, s': State, p: nat): MsgId
    requires p < |s.workers| == |s'.workers| && (s.workers[p].Working? != s'.workers[p].Working?)
  {
    if s.workers[p].Working? then s.workers[p].job.key else s'.workers[p].job.key
  }

  /** Claims change for its own key only, on which no other handler works. */
  lemma TurnKeepsClaims(plan: Plan, s: State, s': State, p: nat, key: MsgId)
    requires Turns(plan, s, s', p)
    requires forall q | 0 <= q < |s.workers| && q != p && s.workers[q].Working? ::
      s.workers[q].job.key != KeyAt(s, s', p)
    ensures key != KeyAt(s, s', p) ==> (InProgress(s', key) <==> InProgress(s, key))
    ensures var w := s.workers[p]; InProgress(s, KeyAt(s, s', p)) <==> w.Working? && w.job.sweeping
    ensures var w := s'.workers[p]; InProgress(s', KeyAt(s, s', p)) <==> w.Working? && w.job.sweeping
  {
    assert s.workers[p].Working? && s.workers[p].job.sweeping ==> Claims(s, p, KeyAt(s, s', p));
    assert s'.workers[p].Working? && s'.workers[p].job.sweeping ==> Claims(s', p, KeyAt(s, s', p));
    if InProgress(s, key) && key != KeyAt(s, s', p) {
      var q :| Claims(s, q, key);
      assert Claims(s', q, key);
    }
    if InProgress(s', key) && key != KeyAt(s, s', p) {
      var q :| Claims(s', q, key);
      assert Claims(s, q, key);
    }
  }

  lemma OthersStayAtWork(plan: Plan, s: State, s': State, p: nat)
    requires AllKept(plan, s) && OnlyWorker(s, s', p) && s'.world.posts == s.world.posts
    requires s'.workers[p].Working? ==> IsAtWork(plan, s', p)
    ensures forall q | 0 <= q < |s'.workers| && s'.workers[q].Working? :: IsAtWork(plan, s', q)
  {
    forall q | 0 <= q < |s'.workers| && s'.workers[q].Working?
      ensures IsAtWork(plan, s', q)
    {
      if q != p {
        assert IsAtWork(plan, s, q) && s'.workers[q] == s.workers[q];
      }
    }
  }

  /** A handler begins: what it finds in the cache is its own now. */
  ghost predicate Begins(plan: Plan, s: State, s': State, p: nat) {
    && Turns(plan, s, s', p) && s'.world == s.world && s'.workers[p].Working?
    && var job := s'.workers[p].job;
       && job.kept == map[] && (job.sweeping ==> job.key in s.world.cache)
       && job.stale == if job.sweeping then s.world.cache[job.key] else map[]
  }

  lemma BeginKeepsOwners(plan: Plan, s: State, s': State, p: nat)
    requires Begins(plan, s, s', p) && HasOneOwner(s)
    requires forall q | 0 <= q < |s.workers| && q != p && s.workers[q].Working? ::
      s.workers[q].job.key != s'.workers[p].job.key
    ensures HasOneOwner(s')
  {
    var key := s'.workers[p].job.key;
    forall z: Owner | z != Handler(p)
      ensures Owned(s', z) <= Owned(s, z)
    {
      if z.Slot? {
        TurnKeepsClaims(plan, s, s', p, z.key);
      } else if z.p < |s.workers| {
        assert s'.workers[z.p] == s.workers[z.p];
      }
    }
    TurnKeepsClaims(plan, s, s', p, key);
    if s'.workers[p].job.sweeping {
      OwnersAfter(s, s', Slot(key), Handler(p));
    } else {
      OwnersAfter(s, s', Handler(p), Handler(p));
    }
  }

  lemma BeginBegins(plan: Plan, s: State, p: nat)
    requires Orderly(plan, s) && Enabled(plan, s, Begin(p)) && Next(plan, s, Begin(p)).workers[p].Working?
    ensures var s' := Next(plan, s, Begin(p));
      Begins(plan, s, s', p) && s.workers[p].k < |plan.events| && IsJobOf(plan, s'.workers[p].k, s'.workers[p].job)
    ensures Next(plan, s, Begin(p)).workers[p].job.key in Touches(plan.events[s.workers[p].k])
  {
    StepView(plan, s, Begin(p));
    HeldNotHandled(plan, s, p);
    BeginIsJob(plan, s, p);
  }

  lemma FoundIsSound(s: State, key: MsgId)
    requires key in s.world.cache && IsKept(s, key) && !InProgress(s, key)
    ensures Runs.Sound(s.world.cache[key], s.world.posts)
  {
  }

  lemma BeginsTidy(plan: Plan, s: State, s': State, p: nat)
    requires AllKept(plan, s) && Begins(plan, s, s', p) && !InProgress(s, s'.workers[p].job.key)
    ensures Runs.JobInv(Progress(s'.workers[p].job, s'.world.posts), map[])
  {
    var job := s'.workers[p].job;
    if job.sweeping {
      FoundIsSound(s, job.key);
    }
  }

  lemma BeginKeeps(plan: Plan, s: State, p: nat)
    requires KeysApart(plan) && AllKept(plan, s) && Enabled(plan, s, Begin(p))
    requires Next(plan, s, Begin(p)).workers[p].Working?
    ensures AllKept(plan, Next(plan, s, Begin(p)))
  {
    var s' := Next(plan, s, Begin(p));
    NextKeepsInv(plan, s, Begin(p));
    BeginBegins(plan, s, p);
    OneHandler(plan, s, p, s'.workers[p].job.key);
    BeginKeepsRest(plan, s, s', p);
  }

  lemma BeginKeepsRest(plan: Plan, s: State, s': State, p: nat)
    requires AllKept(plan, s) && Orderly(plan, s') && Begins(plan, s, s', p)
    requires s'.workers[p].k < |plan.events| && IsJobOf(plan, s'.workers[p].k, s'.workers[p].job)
    requires forall q | 0 <= q < |s.workers| && q != p && s.workers[q].Working? ::
      s.workers[q].job.key != s'.workers[p].job.key
    ensures AllKept(plan, s')
  {
    BeginKeepsOwners(plan, s, s', p);
    TurnKeepsClaims(plan, s, s', p, s'.workers[p].job.key);
    BeginsTidy(plan, s, s', p);
    OthersStayAtWork(plan, s, s', p);
    forall key <- s'.world.cache
      ensures IsKept(s', key)
    {
      assert IsKept(s, key);
      TurnKeepsClaims(plan, s, s', p, key);
    }
  }

  /** A handler ends: what it keeps is the cache's. */
  ghost predicate Ends(plan: Plan, s: State, s': State, p: nat) {
    && Turns(plan, s, s', p) && s.workers[p].Working? && s.workers[p].job.stale == map[]
    && s'.world == World(CacheAfter(s.workers[p].job, s.world.cache), s.world.posts)
  }

  lemma EndKeepsOwners(plan: Plan, s: State, s': State, p: nat)
    requires Ends(plan, s, s', p) && HasOneOwner(s)
    requires forall q | 0 <= q < |s.workers| && q != p && s.workers[q].Working? ::
      s.workers[q].job.key != s.workers[p].job.key
    ensures HasOneOwner(s')
  {
    var key := s.workers[p].job.key;
    forall z: Owner | z != Slot(key)
      ensures Owned(s', z) <= Owned(s, z)
    {
      if z.Slot? {
        TurnKeepsClaims(plan, s, s', p, z.key);
      } else if z.p < |s.workers| && z.p != p {
        assert s'.workers[z.p] == s.workers[z.p];
      }
    }
    TurnKeepsClaims(plan, s, s', p, key);
    OwnersAfter(s, s', Handler(p), Slot(key));
  }

  lemma EndKeepsEntry(plan: Plan, s: State, s': State, p: nat, key: MsgId)
    requires AllKept(plan, s) && Ends(plan, s, s', p) && key in s'.world.cache
    requires forall q | 0 <= q < |s.workers| && q != p && s.workers[q].Working? ::
      s.workers[q].job.key != s.workers[p].job.key
    ensures IsKept(s', key)
  {
    TurnKeepsClaims(plan, s, s', p, key);
    TurnKeepsClaims(plan, s, s', p, s.workers[p].job.key);
    assert IsAtWork(plan, s, p);
    if s'.world.cache[key] != s.workers[p].job.kept || key != s.workers[p].job.key {
      assert IsKept(s, key);
    }
  }

  lemma StoreKeeps(plan: Plan, s: State, p: nat)
    requires KeysApart(plan) && AllKept(plan, s) && Enabled(plan, s, Store(p))
    ensures AllKept(plan, Next(plan, s, Store(p)))
  {
    var s' := Next(plan, s, Store(p));
    NextKeepsInv(plan, s, Store(p));
    StepView(plan, s, Store(p));
    assert IsAtWork(plan, s, p);
    OneHandler(plan, s, p, s.workers[p].job.key);
    EndKeepsOwners(plan, s, s', p);
    OthersStayAtWork(plan, s, s', p);
    forall key <- s'.world.cache
      ensures IsKept(s', key)
    {
      EndKeepsEntry(plan, s, s', p, key);
    }
  }

  /** Nothing happens but that entries may go. */
  ghost predicate OnlyForgets(s: State, s': State) {
    && s'.world.posts == s.world.posts && |s'.workers| == |s.workers|
    && (forall key <- s'.world.cache :: key in s.world.cache && s'.world.cache[key] == s.world.cache[key])
    && forall p | 0 <= p < |s.workers| ::
         s'.workers[p] == s.workers[p] || (!s.workers[p].Working? && !s'.workers[p].Working?)
  }

  lemma ForgettingKeeps(plan: Plan, s: State, s': State)
    requires AllKept(plan, s) && Orderly(plan, s') && OnlyForgets(s, s')
    ensures AllKept(plan, s')
  {
    forall key
      ensures InProgress(s', key) <==> InProgress(s, key)
    {
      ForgettingKeepsClaims(s, s', key);
    }
    forall z: Owner
      ensures Owned(s', z) <= Owned(s, z)
    {
      if z.Handler? && z.p < |s.workers| {
        assert s'.workers[z.p] == s.workers[z.p] || !s'.workers[z.p].Working?;
      }
    }
    OwnersAfter(s, s', Handler(0), Handler(0));
    forall p | 0 <= p < |s'.workers| && s'.workers[p].Working?
      ensures IsAtWork(plan, s', p)
    {
      assert IsAtWork(plan, s, p);
    }
    forall key <- s'.world.cache
      ensures IsKept(s', key)
    {
      assert IsKept(s, key);
    }
  }

  lemma ForgettingKeepsClaims(s: State, s': State, key: MsgId)
    requires OnlyForgets(s, s')
    ensures InProgress(s', key) <==> InProgress(s, key)
  {
    if InProgress(s, key) {
      var q :| Claims(s, q, key);
      assert Claims(s', q, key);
    }
    if InProgress(s', key) {
      var q :| Claims(s', q, key);
      assert Claims(s, q, key);
    }
  }

  lemma SanePasses(plan: Plan, s: State, s': State)
    requires Orderly(plan, s) && s' == s.(world := s'.world)
    ensures Orderly(plan, s')
  {
    forall p | 0 <= p < plan.count
      ensures Sane(plan, s', p)
    {
      assert Sane(plan, s, p);
    }
  }

  lemma MoveKeeps(plan: Plan, s: State, move: Move)
    requires KeysApart(plan) && AllKept(plan, s) && CanMove(plan, s, move)
    ensures AllKept(plan, AfterMove(plan, s, move))
  {
    var s' := AfterMove(plan, s, move);
    match move {
      case Evict(_) =>
        SanePasses(plan, s, s');
        ForgettingKeeps(plan, s, s');
      case Act(step) =>
        if step.AnswerNext? {
          AnswerKeeps(plan, s, step.p);
        } else if step.RetractNext? {
          RetractKeeps(plan, s, step.p, step.action);
        } else if step.Store? {
          StoreKeeps(plan, s, step.p);
        } else if step.Begin? && s'.workers[step.p].Working? {
          BeginKeeps(plan, s, step.p);
        } else {
          NextKeepsInv(plan, s, step);
          StepView(plan, s, step);
          ForgettingKeeps(plan, s, s');
        }
    }
  }

  lemma {:induction false} RunKeeps(plan: Plan, s: State, moves: seq<Move>)
    requires KeysApart(plan) && AllKept(plan, s) && Run(plan, s, moves).Some?
    ensures AllKept(plan, Run(plan, s, moves).value)
    decreases |moves|
  {
    if moves != [] {
      MoveKeeps(plan, s, moves[0]);
      RunKeeps(plan, AfterMove(plan, s, moves[0]), moves[1..]);
    }
  }

  lemma InitKeeps(plan: Plan)
    requires plan.Valid()
    ensures AllKept(plan, Init(plan))
  {
    InitRoles(plan, {});
  }

  // ---- In every state ----

  ghost function OwnerOf(s: State, key: MsgId): (owner: Owner)
    ensures key in s.world.cache ==> s.world.cache[key].Values <= Owned(s, owner)
    ensures match owner
            case Slot(k) => k == key
            case Handler(p) => p < |s.workers| && s.workers[p].Working? && s.workers[p].job.key == key
  {
    if InProgress(s, key) then
      var p :| Claims(s, p, key);
      Handler(p)
    else Slot(key)
  }

  /**
   Whatever the workers are at, and whatever the cache evicts in between: the invariant of every state that a run with
   an honest driver reaches, if events of different queues are about different messages.
   */
  lemma EveryStateKeepsResponses(plan: Plan, s: State)
    requires KeysApart(plan) && HonestlyReachable(plan, s)
    ensures KeepsResponses(s)
  {
    var moves :| Run(plan, Init(plan), moves) == Some(s);
    InitKeeps(plan);
    RunKeeps(plan, Init(plan), moves);
    forall key <- s.world.cache
      ensures IsEntry(s.world.cache[key], s.world.posts)
      ensures Runs.Sound(s.world.cache[key], s.world.posts) || InProgress(s, key)
    {
      assert IsKept(s, key);
    }
    forall k1 <- s.world.cache, k2 <- s.world.cache | k1 != k2
      ensures Runs.Apart(s.world.cache[k1], s.world.cache[k2])
    {
      assert Owned(s, OwnerOf(s, k1)) !! Owned(s, OwnerOf(s, k2));
      forall a <- s.world.cache[k1], b <- s.world.cache[k2]
        ensures s.world.cache[k1][a] != s.world.cache[k2][b]
      {
        assert s.world.cache[k1][a] in s.world.cache[k1].Values && s.world.cache[k2][b] in s.world.cache[k2].Values;
      }
    }
  }

  /** Between handlers, and so when the main loop has returned, that is the run invariant of the sequential bot. */
  lemma ConcurrentRunInvariant(plan: Plan, s: State)
    requires KeysApart(plan) && HonestlyReachable(plan, s)
    requires s.main.Returned? || forall p | 0 <= p < |s.workers| :: !s.workers[p].Working?
    ensures Runs.Inv(s.world)
  {
    EveryStateKeepsResponses(plan, s);
    var moves :| Run(plan, Init(plan), moves) == Some(s);
    InitKeeps(plan);
    RunKeeps(plan, Init(plan), moves);
    forall p | 0 <= p < |s.workers|
      ensures !s.workers[p].Working?
    {
      assert Sane(plan, s, p);
    }
  }
}
