/** What every run of handled events keeps, whatever fails and whatever the cache evicts. */
module Runs {
  import opened Messages
  import opened Actions
  import opened Reconcile

  // ---- Honest drivers ----

  /** An id the driver hands out for a new message was never handed out before. */
  predicate HonestOne(p: Progress)
    requires Answering(p.job)
  {
    var update, send := p.job.script.updates(p.job.at), p.job.script.sends(p.job.at);
    if p.job.outs[p.job.at].pluginActionId in p.job.stale then update.Moved? ==> update.id !in p.posts
    else send.Trackable() ==> send.id !in p.posts
  }

  predicate HonestAll(p: Progress)
    requires p.job.at <= |p.job.outs|
    decreases |p.job.outs| - p.job.at
  {
    Answering(p.job) ==> HonestOne(p) && HonestAll(AnswerOne(p))
  }

  predicate Honest(bot: Bot, w: World, e: MessageEvent, script: Script) {
    var job := Start(bot, w.cache, e, script);
    job.Some? ==> HonestAll(Progress(job.value, w.posts))
  }

  // ---- The invariant ----

  /** Each response of the entry is a post of the driver, undeleted, and belongs to one action only. */
  ghost predicate Sound(entry: Entry, posts: Posts) {
    && (forall a <- entry :: entry[a] in posts && posts[entry[a]].deletes == 0)
    && (forall a <- entry, b <- entry :: entry[a] == entry[b] ==> a == b)
  }

  ghost predicate Apart(entry1: Entry, entry2: Entry) {
    forall a <- entry1, b <- entry2 :: entry1[a] != entry2[b]
  }

  /** No response is in two slots of the cache. */
  ghost predicate Tracked(cache: Cache, posts: Posts) {
    && (forall k <- cache :: Sound(cache[k], posts))
    && (forall k1 <- cache, k2 <- cache :: k1 != k2 ==> Apart(cache[k1], cache[k2]))
  }

  ghost predicate DeletedAtMostOnce(posts: Posts) {
    forall id <- posts :: posts[id].deletes <= 1
  }

  ghost predicate Inv(w: World) {
    && (forall k <- w.cache :: w.cache[k] != map[])
    && Tracked(w.cache, w.posts)
    && DeletedAtMostOnce(w.posts)
  }

  /** The entries of the cache a job leaves alone, at least until it stores its result. */
  function Others(job: Job, cache: Cache): Cache {
    if job.sweeping then cache - {job.key} else cache
  }

  /** While a job runs, the responses of its two maps and of the other entries stay apart. */
  ghost predicate JobInv(p: Progress, others: Cache) {
    && Tracked(others, p.posts)
    && Sound(p.job.stale, p.posts) && Sound(p.job.kept, p.posts) && Apart(p.job.stale, p.job.kept)
    && (forall k <- others :: Apart(others[k], p.job.stale) && Apart(others[k], p.job.kept))
    && DeletedAtMostOnce(p.posts)
  }

  /** New ids aside, the posts and the deletes issued for them stay. */
  ghost predicate Grown(posts: Posts, posts': Posts) {
    forall id <- posts :: id in posts' && posts'[id].deletes == posts[id].deletes
  }

  lemma GrownKeepsTracked(cache: Cache, posts: Posts, posts': Posts)
    requires Tracked(cache, posts) && Grown(posts, posts')
    ensures Tracked(cache, posts')
  {
    forall k <- cache
      ensures Sound(cache[k], posts')
    {
      assert Sound(cache[k], posts);
    }
  }

  /** An id that was unknown, or that only the stale map held, can be kept. */
  lemma KeepOne(p: Progress, others: Cache, stale': Entry, posts': Posts, a: string, id: MsgId)
    requires JobInv(p, others) && Grown(p.posts, posts')
    requires stale'.Keys <= p.job.stale.Keys && forall b <- stale' :: stale'[b] == p.job.stale[b] && stale'[b] != id
    requires id in posts' && posts'[id].deletes == 0
    requires id !in p.posts || exists b <- p.job.stale :: p.job.stale[b] == id
    requires DeletedAtMostOnce(posts')
    ensures JobInv(Progress(p.job.(stale := stale', kept := p.job.kept[a := id]), posts'), others)
  {
    GrownKeepsTracked(others, p.posts, posts');
    forall k <- others
      ensures Apart(others[k], stale') && Apart(others[k], p.job.kept[a := id])
    {
      assert Sound(others[k], p.posts) && Apart(others[k], p.job.stale) && Apart(others[k], p.job.kept);
    }
  }

  lemma AnswerOneKeepsInv(p: Progress, others: Cache)
    requires Answering(p.job) && HonestOne(p) && JobInv(p, others)
    ensures JobInv(AnswerOne(p), others) && Grown(p.posts, AnswerOne(p).posts)
  {
    var job, o, q := p.job, p.job.outs[p.job.at], AnswerOne(p);
    GrownKeepsTracked(others, p.posts, q.posts);
    if o.pluginActionId in job.stale {
      var r, reply := job.stale[o.pluginActionId], job.script.updates(job.at);
      if !reply.UpdateFailed? {
        KeepOne(p, others, job.stale - {o.pluginActionId}, q.posts, o.pluginActionId, UpdatedId(r, reply));
      }
    } else if job.script.sends(job.at).Trackable() {
      KeepOne(p, others, job.stale, q.posts, o.pluginActionId, job.script.sends(job.at).id);
    }
  }

  lemma {:induction false} AnswerAllKeepsInv(p: Progress, others: Cache)
    requires p.job.at <= |p.job.outs| && HonestAll(p) && JobInv(p, others)
    ensures JobInv(AnswerAll(p), others) && Grown(p.posts, AnswerAll(p).posts)
    decreases |p.job.outs| - p.job.at
  {
    if Answering(p.job) {
      AnswerOneKeepsInv(p, others);
      AnswerAllKeepsInv(AnswerOne(p), others);
    }
  }

  /** Answering changes neither what a job is for nor where it stores its result. */
  lemma {:induction false} AnswerAllFrame(p: Progress)
    requires p.job.at <= |p.job.outs|
    ensures var q := AnswerAll(p).job;
      q.key == p.job.key && q.outs == p.job.outs && q.script == p.job.script && q.sweeping == p.job.sweeping
      && q.at == |q.outs|
    decreases |p.job.outs| - p.job.at
  {
    if Answering(p.job) {
      AnswerAllFrame(AnswerOne(p));
    }
  }

  /** A response is used by one action of a sound entry, or by none. */
  lemma UsesOfSound(stale: Entry, posts: Posts, id: MsgId)
    requires Sound(stale, posts)
    ensures Uses(stale, id) == if id in stale.Values then 1 else 0
  {
    var users := set a | a in stale && stale[a] == id;
    if a :| a in stale && stale[a] == id {
      assert users == {a};
    }
  }

  lemma RetractAllDeletes(p: Progress, others: Cache)
    requires JobInv(p, others)
    ensures var posts' := RetractAll(p.posts, p.job.stale, p.job.script);
      && (forall id <- posts' :: posts'[id].deletes
            == if id in p.job.stale.Values then 1 else p.posts[id].deletes)
      && DeletedAtMostOnce(posts')
  {
    forall id <- p.posts {
      UsesOfSound(p.job.stale, p.posts, id);
    }
  }

  /** An entry apart from the deleted responses stays sound. */
  lemma RetractAllKeepsSound(p: Progress, others: Cache, entry: Entry)
    requires JobInv(p, others) && Sound(entry, p.posts) && Apart(entry, p.job.stale)
    ensures Sound(entry, RetractAll(p.posts, p.job.stale, p.job.script))
  {
    RetractAllDeletes(p, others);
  }

  lemma StoredTracked(p: Progress, cache: Cache)
    requires JobInv(p, Others(p.job, cache))
    ensures Tracked(CacheAfter(p.job, cache), p.posts)
    ensures forall k <- CacheAfter(p.job, cache) :: Apart(CacheAfter(p.job, cache)[k], p.job.stale)
  {
    var others, stored := Others(p.job, cache), CacheAfter(p.job, cache);
    forall k <- stored
      ensures (k == p.job.key && stored[k] == p.job.kept) || (k in others && stored[k] == others[k])
    {
    }
    forall k1 <- stored, k2 <- stored | k1 != k2
      ensures Apart(stored[k1], stored[k2])
    {
    }
  }

  lemma CompleteKeepsInv(job: Job, w: World)
    requires Inv(w) && job.at <= |job.outs| && HonestAll(Progress(job, w.posts))
    requires JobInv(Progress(job, w.posts), Others(job, w.cache))
    ensures Inv(Complete(job, w))
  {
    var others := Others(job, w.cache);
    var p, w' := AnswerAll(Progress(job, w.posts)), Complete(job, w);
    AnswerAllFrame(Progress(job, w.posts));
    AnswerAllKeepsInv(Progress(job, w.posts), others);
    StoredTracked(p, w.cache);
    forall k <- w'.cache
      ensures Sound(w'.cache[k], w'.posts)
    {
      RetractAllKeepsSound(p, others, w'.cache[k]);
    }
    RetractAllDeletes(p, others);
  }

  lemma FreshJobInv(job: Job, w: World)
    requires Inv(w) && job.stale == map[] && job.kept == map[] && !job.sweeping
    ensures JobInv(Progress(job, w.posts), Others(job, w.cache))
  {
  }

  lemma CachedJobInv(job: Job, w: World)
    requires Inv(w) && job.key in w.cache && job.stale == w.cache[job.key] && job.kept == map[] && job.sweeping
    ensures JobInv(Progress(job, w.posts), Others(job, w.cache))
  {
    var others := Others(job, w.cache);
    forall k <- others
      ensures Sound(others[k], w.posts) && Apart(others[k], job.stale)
    {
      assert Sound(w.cache[k], w.posts) && Apart(w.cache[k], w.cache[job.key]);
    }
    forall k1 <- others, k2 <- others | k1 != k2
      ensures Apart(others[k1], others[k2])
    {
      assert Apart(w.cache[k1], w.cache[k2]);
    }
  }

  lemma StartJobInv(bot: Bot, w: World, e: MessageEvent, script: Script)
    requires Inv(w) && Start(bot, w.cache, e, script).Some?
    ensures var job := Start(bot, w.cache, e, script).value;
      JobInv(Progress(job, w.posts), Others(job, w.cache))
  {
    var job := Start(bot, w.cache, e, script).value;
    if job.sweeping {
      CachedJobInv(job, w);
    } else {
      FreshJobInv(job, w);
    }
  }

  lemma HandleKeepsInv(bot: Bot, w: World, e: MessageEvent, script: Script)
    requires Inv(w) && Honest(bot, w, e, script)
    ensures Inv(Handle(bot, w, e, script))
  {
    var job := Start(bot, w.cache, e, script);
    if job.Some? {
      StartJobInv(bot, w, e, script);
      CompleteKeepsInv(job.value, w);
    }
  }

  // ---- Runs ----

  /** The ARC cache may drop entries at any time. */
  datatype Turn = Handled(e: MessageEvent, script: Script) | Evicted(keys: set<MsgId>)

  function Apply(bot: Bot, w: World, turn: Turn): World {
    match turn
    case Handled(e, script) => Handle(bot, w, e, script)
    case Evicted(keys) => w.(cache := w.cache - keys)
  }

  function After(bot: Bot, w: World, turns: seq<Turn>): World {
    if turns == [] then w
    else Apply(bot, After(bot, w, turns[..|turns| - 1]), turns[|turns| - 1])
  }

  predicate HonestRun(bot: Bot, w: World, turns: seq<Turn>) {
    turns != [] ==>
      var before, last := turns[..|turns| - 1], turns[|turns| - 1];
      && HonestRun(bot, w, before)
      && (last.Handled? ==> Honest(bot, After(bot, w, before), last.e, last.script))
  }

  /**
   In every run of a new bot: no response is tracked in two slots, no cached entry is empty, every cached id was
   posted by the driver, no response is deleted twice and none that is still cached is deleted.
   */
  lemma {:induction false} RunInvariant(bot: Bot, turns: seq<Turn>)
    requires HonestRun(bot, World(map[], map[]), turns)
    ensures Inv(After(bot, World(map[], map[]), turns))
  {
    if turns != [] {
      var before, last := turns[..|turns| - 1], turns[|turns| - 1];
      RunInvariant(bot, before);
      var w := After(bot, World(map[], map[]), before);
      match last {
        case Handled(e, script) => HandleKeepsInv(bot, w, e, script);
        case Evicted(keys) =>
      }
    }
  }

  // ---- Conservation in one edit ----

  /** The driver call for an outgoing message leaves a response that can be tracked. */
  predicate Succeeds(previous: Entry, outs: seq<OutgoingMessage>, script: Script, i: nat)
    requires i < |outs|
  {
    if outs[i].pluginActionId in previous then !script.updates(i).UpdateFailed? else script.sends(i).Trackable()
  }

  function ResultId(previous: Entry, outs: seq<OutgoingMessage>, script: Script, i: nat): MsgId
    requires i < |outs| && Succeeds(previous, outs, script, i)
  {
    var a := outs[i].pluginActionId;
    if a in previous then UpdatedId(previous[a], script.updates(i)) else script.sends(i).id
  }

  /** Some message from position `from` on is for this action and its driver call succeeds. */
  ghost predicate Answers(previous: Entry, outs: seq<OutgoingMessage>, script: Script, from: nat, a: string) {
    exists i :: from <= i < |outs| && outs[i].pluginActionId == a && Succeeds(previous, outs, script, i)
  }

  lemma AnswersUnfold(previous: Entry, outs: seq<OutgoingMessage>, script: Script, from: nat, a: string)
    requires from < |outs|
    ensures Answers(previous, outs, script, from, a) <==>
      (outs[from].pluginActionId == a && Succeeds(previous, outs, script, from))
      || Answers(previous, outs, script, from + 1, a)
  {
  }

  /** Later messages are for other actions, so dropping an answered action does not matter to them. */
  lemma AnswersFrame(job: Job, next: Job, a: string)
    requires Answering(job) && DistinctActions(job.outs)
    requires next.stale == job.stale || next.stale == job.stale - {job.outs[job.at].pluginActionId}
    ensures Answers(next.stale, job.outs, job.script, job.at + 1, a)
      <==> Answers(job.stale, job.outs, job.script, job.at + 1, a)
  {
    assert forall i | job.at < i < |job.outs| ::
      Succeeds(next.stale, job.outs, job.script, i) == Succeeds(job.stale, job.outs, job.script, i);
  }

  /** An action is answered by the next message or by a later one. */
  lemma AnswersNext(p: Progress, a: string)
    requires Answering(p.job) && DistinctActions(p.job.outs)
    ensures var job, next := p.job, AnswerOne(p).job;
      Answers(job.stale, job.outs, job.script, job.at, a) <==>
        (job.outs[job.at].pluginActionId == a && Succeeds(job.stale, job.outs, job.script, job.at))
        || Answers(next.stale, next.outs, next.script, next.at, a)
  {
    AnswersUnfold(p.job.stale, p.job.outs, p.job.script, p.job.at, a);
    AnswersFrame(p.job, AnswerOne(p).job, a);
  }

  /** What the loop over the outgoing messages leaves for one action, for distinct action ids. */
  lemma {:induction false} AnswerAllKeys(p: Progress, a: string)
    requires p.job.at <= |p.job.outs| && DistinctActions(p.job.outs)
    ensures var job, done := p.job, AnswerAll(p).job;
      && (a in done.stale <==> a in job.stale && !Answers(job.stale, job.outs, job.script, job.at, a))
      && (a in done.stale ==> done.stale[a] == job.stale[a])
      && (a in done.kept <==> a in job.kept || Answers(job.stale, job.outs, job.script, job.at, a))
    decreases |p.job.outs| - p.job.at
  {
    if Answering(p.job) {
      AnswersNext(p, a);
      AnswerAllKeys(AnswerOne(p), a);
    }
  }

  /** An action whose turn has passed keeps the id it has. */
  lemma {:induction false} AnswerAllKeeps(p: Progress, a: string)
    requires p.job.at <= |p.job.outs| && a in p.job.kept
    requires forall i | p.job.at <= i < |p.job.outs| :: p.job.outs[i].pluginActionId != a
    ensures a in AnswerAll(p).job.kept && AnswerAll(p).job.kept[a] == p.job.kept[a]
    decreases |p.job.outs| - p.job.at
  {
    if Answering(p.job) {
      AnswerAllKeeps(AnswerOne(p), a);
    }
  }

  /** A successful call at position i gives its action the id the driver returned. */
  lemma {:induction false} AnswerAllIds(p: Progress, i: nat)
    requires p.job.at <= i < |p.job.outs| && DistinctActions(p.job.outs)
    requires Succeeds(p.job.stale, p.job.outs, p.job.script, i)
    ensures var a := p.job.outs[i].pluginActionId;
      a in AnswerAll(p).job.kept
      && AnswerAll(p).job.kept[a] == ResultId(p.job.stale, p.job.outs, p.job.script, i)
    decreases i - p.job.at
  {
    var a := p.job.outs[i].pluginActionId;
    if i == p.job.at {
      AnswerAllKeeps(AnswerOne(p), a);
    } else {
      AnswerAllIds(AnswerOne(p), i);
    }
  }

  /** Answering touches only the posts it updates. */
  lemma {:induction false} AnswerAllPosts(p: Progress, id: MsgId)
    requires p.job.at <= |p.job.outs| && HonestAll(p)
    requires id in p.posts && forall a <- p.job.stale :: p.job.stale[a] != id
    ensures id in AnswerAll(p).posts && AnswerAll(p).posts[id] == p.posts[id]
    decreases |p.job.outs| - p.job.at
  {
    if Answering(p.job) {
      AnswerAllPosts(AnswerOne(p), id);
    }
  }

  function EntryOf(cache: Cache, key: MsgId): Entry {
    if key in cache then cache[key] else map[]
  }

  /** The action was routed again and the update of its response went through. */
  ghost predicate IsUpdated(outs: seq<OutgoingMessage>, script: Script, a: string) {
    exists i :: 0 <= i < |outs| && outs[i].pluginActionId == a && !script.updates(i).UpdateFailed?
  }

  /** What is kept and what is deleted once all messages of an edit are answered. */
  lemma EditOutcome(p: Progress, others: Cache, a: string)
    requires p.job.at == 0 && p.job.kept == map[] && DistinctActions(p.job.outs)
    requires HonestAll(p) && JobInv(p, others)
    ensures var previous, q := p.job.stale, AnswerAll(p);
      && (a in q.job.kept <==> Answers(previous, p.job.outs, p.job.script, 0, a))
      && (a in previous ==> previous[a] in q.posts && q.posts[previous[a]].deletes == 0)
      && (a in previous ==> (a in q.job.kept <==> IsUpdated(p.job.outs, p.job.script, a)))
      && (a in previous ==> (previous[a] in q.job.stale.Values <==> a !in q.job.kept))
      && (a in previous && a in q.job.stale ==> previous[a] !in q.job.kept.Values)
  {
    AnswerAllKeys(p, a);
    AnswerAllKeepsInv(p, others);
    assert Sound(p.job.stale, p.posts);
    forall b <- AnswerAll(p).job.stale
      ensures b in p.job.stale && AnswerAll(p).job.stale[b] == p.job.stale[b]
    {
      AnswerAllKeys(p, b);
    }
  }

  /** The entry holds exactly the actions whose driver call succeeded, under the ids the driver returned. */
  ghost predicate KeepsSuccesses(previous: Entry, outs: seq<OutgoingMessage>, script: Script, entry: Entry) {
    && (forall a :: a in entry <==> Answers(previous, outs, script, 0, a))
    && (forall i | 0 <= i < |outs| && Succeeds(previous, outs, script, i) ::
          entry[outs[i].pluginActionId] == ResultId(previous, outs, script, i))
  }

  /** A previous response is either updated and kept under its action, or deleted exactly once and forgotten. */
  ghost predicate AccountsFor(previous: Entry, outs: seq<OutgoingMessage>, script: Script, entry: Entry, posts: Posts) {
    forall a <- previous :: previous[a] in posts &&
      if IsUpdated(outs, script, a)
      then a in entry && posts[previous[a]].deletes == 0
      else a !in entry && posts[previous[a]].deletes == 1 && previous[a] !in entry.Values
  }

  lemma EditKeepsSuccesses(p: Progress, others: Cache)
    requires p.job.at == 0 && p.job.kept == map[] && DistinctActions(p.job.outs)
    requires HonestAll(p) && JobInv(p, others)
    ensures KeepsSuccesses(p.job.stale, p.job.outs, p.job.script, AnswerAll(p).job.kept)
  {
    var job := p.job;
    forall a
      ensures a in AnswerAll(p).job.kept <==> Answers(job.stale, job.outs, job.script, 0, a)
    {
      EditOutcome(p, others, a);
    }
    forall i | 0 <= i < |job.outs| && Succeeds(job.stale, job.outs, job.script, i)
      ensures job.outs[i].pluginActionId in AnswerAll(p).job.kept
      ensures AnswerAll(p).job.kept[job.outs[i].pluginActionId] == ResultId(job.stale, job.outs, job.script, i)
    {
      AnswerAllIds(p, i);
    }
  }

  lemma EditAccountsFor(p: Progress, others: Cache)
    requires p.job.at == 0 && p.job.kept == map[] && DistinctActions(p.job.outs)
    requires HonestAll(p) && JobInv(p, others)
    ensures var q := AnswerAll(p);
      AccountsFor(p.job.stale, p.job.outs, p.job.script, q.job.kept, RetractAll(q.posts, q.job.stale, p.job.script))
  {
    var q := AnswerAll(p);
    AnswerAllKeepsInv(p, others);
    forall a <- p.job.stale
      ensures Uses(q.job.stale, p.job.stale[a]) == if a in q.job.kept then 0 else 1
      ensures p.job.stale[a] in q.posts && q.posts[p.job.stale[a]].deletes == 0
      ensures a in q.job.kept <==> IsUpdated(p.job.outs, p.job.script, a)
      ensures a !in q.job.kept ==> p.job.stale[a] !in q.job.kept.Values
    {
      EditOutcome(p, others, a);
      AnswerAllKeys(p, a);
      UsesOfSound(q.job.stale, q.posts, p.job.stale[a]);
    }
  }

  lemma CompleteCache(job: Job, w: World)
    requires job.at <= |job.outs| && job.sweeping
    ensures EntryOf(Complete(job, w).cache, job.key) == AnswerAll(Progress(job, w.posts)).job.kept
    ensures Complete(job, w).cache - {job.key} == w.cache - {job.key}
  {
    AnswerAllFrame(Progress(job, w.posts));
    CacheAfterSweep(AnswerAll(Progress(job, w.posts)).job, w.cache);
  }

  lemma CacheAfterSweep(job: Job, cache: Cache)
    requires job.sweeping
    ensures EntryOf(CacheAfter(job, cache), job.key) == job.kept
    ensures CacheAfter(job, cache) - {job.key} == cache - {job.key}
  {
  }

  /** An edit of a message with responses accounts for every one of them and changes nothing else. */
  lemma EditConserves(bot: Bot, w: World, e: MessageEvent, script: Script)
    requires Inv(w) && Honest(bot, w, e, script) && DistinctNames(bot)
    requires KindOf(e) == Changed && e.OriginalId() in w.cache && Start(bot, w.cache, e, script).Some?
    ensures var key, outs, w' := e.OriginalId(), Routed(bot, e), Handle(bot, w, e, script);
      var previous, entry := w.cache[key], EntryOf(w'.cache, key);
      && KeepsSuccesses(previous, outs, script, entry)
      && AccountsFor(previous, outs, script, entry, w'.posts)
      && w'.cache - {key} == w.cache - {key}
      && (forall id <- w.posts :: id !in previous.Values ==> id in w'.posts && w'.posts[id] == w.posts[id])
  {
    var job := Start(bot, w.cache, e, script).value;
    var p, others := Progress(job, w.posts), Others(job, w.cache);
    RoutedIdentity(bot, e);
    StartJobInv(bot, w, e, script);
    AnswerAllFrame(p);
    CompleteCache(job, w);
    EditKeepsSuccesses(p, others);
    EditAccountsFor(p, others);
    forall id <- w.posts | id !in job.stale.Values
      ensures id in Complete(job, w).posts && Complete(job, w).posts[id] == w.posts[id]
    {
      EditFrame(p, others, id);
    }
  }

  lemma EditFrame(p: Progress, others: Cache, id: MsgId)
    requires p.job.at == 0 && p.job.kept == map[] && DistinctActions(p.job.outs)
    requires HonestAll(p) && JobInv(p, others)
    requires id in p.posts && id !in p.job.stale.Values
    ensures var q := AnswerAll(p);
      id in q.posts && RetractAll(q.posts, q.job.stale, p.job.script)[id] == p.posts[id]
  {
    var q := AnswerAll(p);
    AnswerAllPosts(p, id);
    AnswerAllKeepsInv(p, others);
    forall b <- q.job.stale
      ensures q.job.stale[b] != id
    {
      AnswerAllKeys(p, b);
    }
    UsesOfSound(q.job.stale, q.posts, id);
  }
}
