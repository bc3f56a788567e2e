/**
 A message, one edit of it and its deletion in the middle of everything else: when can a response to the message be
 deleted twice?
 */
module DoubleDeletes {
  import opened Text
  import opened Messages
  import opened Actions
  import opened Reconcile
  import opened Dispatch
  import opened Overtaking
  import opened Confluence
  import opened Bystanders
  import opened Deletions

  /** The ids of the answers to a new message. */
  ghost function AnswerIds(plan: Plan, j: nat): set<MsgId>
    requires j < |plan.events|
  {
    set i: nat | i < |Routed(plan.bot, plan.events[j])| && IsAnswered(plan, j, i) :: plan.scripts(j).sends(i).id
  }

  /** Event j posts a message, e edits it, k deletes it. */
  predicate AreAbout(plan: Plan, j: nat, e: nat, k: nat) {
    && j < e < k < |plan.events|
    && KindOf(plan.events[j]) == New && KindOf(plan.events[e]) == Changed && KindOf(plan.events[k]) == Deleted
    && plan.events[j].OwnId() == plan.events[e].OriginalId() == plan.events[k].DeletedId()
  }

  /** The driver gives the answers to the message different ids, and other ones than to the edit. */
  ghost predicate GetOwnIds(plan: Plan, j: nat, e: nat)
    requires j < |plan.events| && e < |plan.events|
  {
    && (forall i1: nat, i2: nat | IsAnswered(plan, j, i1) && IsAnswered(plan, j, i2) && i1 != i2 ::
          plan.scripts(j).sends(i1).id != plan.scripts(j).sends(i2).id)
    && AnswerIds(plan, j) !! NewIds(plan.bot, plan.events[e], plan.scripts(e))
  }

  /** The edit updates answer i to the message. */
  ghost predicate Updates(plan: Plan, j: nat, e: nat, i: nat)
    requires j < |plan.events| && e < |plan.events| && IsAnswered(plan, j, i)
  {
    var a := Routed(plan.bot, plan.events[j])[i].pluginActionId;
    Runs.IsUpdated(Routed(plan.bot, plan.events[e]), plan.scripts(e), a)
  }

  ghost predicate AllUpdated(plan: Plan, j: nat, e: nat)
    requires j < |plan.events| && e < |plan.events|
  {
    forall i: nat | IsAnswered(plan, j, i) :: Updates(plan, j, e, i)
  }

  // ---- Some of the responses ----

  ghost predicate InjectiveOn(ids: set<MsgId>, entry: Entry) {
    forall a <- entry, b <- entry :: entry[a] == entry[b] && entry[a] in ids ==> a == b
  }

  ghost predicate ApartOn(ids: set<MsgId>, entry1: Entry, entry2: Entry) {
    forall a <- entry1, b <- entry2 :: entry1[a] == entry2[b] ==> entry1[a] !in ids
  }

  ghost predicate UndeletedOn(ids: set<MsgId>, entry: Entry, posts: Posts) {
    forall a <- entry :: entry[a] in ids && entry[a] in posts ==> posts[entry[a]].deletes == 0
  }

  /** At most n deletes were issued for each of them. */
  ghost predicate DeletedAtMost(n: nat, ids: set<MsgId>, posts: Posts) {
    forall r <- ids :: r in posts ==> posts[r].deletes <= n
  }

  ghost predicate SameDeletes(ids: set<MsgId>, posts: Posts, posts': Posts) {
    forall r <- ids :: (r in posts' <==> r in posts) && (r in posts ==> posts'[r].deletes == posts[r].deletes)
  }

  // ---- The invariant ----

  ghost predicate IsAnswer(plan: Plan, j: nat, a: string, id: MsgId)
    requires j < |plan.events|
  {
    exists i: nat :: IsAnswered(plan, j, i) && Routed(plan.bot, plan.events[j])[i].pluginActionId == a
                && plan.scripts(j).sends(i).id == id
  }

  ghost predicate AllAnswers(plan: Plan, j: nat, entry: Entry)
    requires j < |plan.events|
  {
    forall a <- entry :: IsAnswer(plan, j, a, entry[a])
  }

  /** Each answer that is still stale will be updated. */
  ghost predicate WillUpdate(ids: set<MsgId>, job: Job) {
    forall a <- job.stale :: job.stale[a] in ids ==>
      exists i :: job.at <= i < |job.outs| && job.outs[i].pluginActionId == a && !job.script.updates(i).UpdateFailed?
  }

  /** While the edit is underway. */
  ghost predicate EditKeeps(ids: set<MsgId>, updates: bool, job: Job, untouched: bool, posts: Posts) {
    && InjectiveOn(ids, job.stale) && InjectiveOn(ids, job.kept) && ApartOn(ids, job.stale, job.kept)
    && (untouched ==> UndeletedOn(ids, job.stale, posts) && UndeletedOn(ids, job.kept, posts))
    && (updates ==> WillUpdate(ids, job))
  }

  /** What the three handlers keep: no answer to the message is deleted twice. */
  ghost predicate Once(plan: Plan, j: nat, updates: bool, message: Status, edit: Status, deletion: Status, w: World)
    requires j < |plan.events|
  {
    var key, ids := plan.events[j].OwnId(), AnswerIds(plan, j);
    var entry := Runs.EntryOf(w.cache, key);
    && DeletedAtMost(1, ids, w.posts)
    && (updates || deletion.NotBegun? || edit.Done?)
    && if message.Done? then
         && InjectiveOn(ids, entry)
         && (edit.NotBegun? ==> AllAnswers(plan, j, entry))
         && (deletion.NotBegun? && (updates || !edit.Underway?) ==> UndeletedOn(ids, entry, w.posts))
         && (edit.Underway? ==>
               && EditKeeps(ids, updates, edit.job, deletion.NotBegun?, w.posts)
               && (edit.job.sweeping || key !in w.cache))
         && (deletion.Underway? ==>
               InjectiveOn(ids, deletion.job.stale) && UndeletedOn(ids, deletion.job.stale, w.posts))
       else
         && edit.NotBegun? && !deletion.Underway? && key !in w.cache && DeletedAtMost(0, ids, w.posts)
         && (message.Underway? ==> AllAnswers(plan, j, message.job.kept))
  }

  // ---- The handler of the message ----

  lemma AnswersInjective(plan: Plan, j: nat, e: nat, k: nat, entry: Entry)
    requires AreAbout(plan, j, e, k) && GetOwnIds(plan, j, e) && AllAnswers(plan, j, entry)
    ensures InjectiveOn(AnswerIds(plan, j), entry)
  {
    forall a <- entry, b <- entry | entry[a] == entry[b]
      ensures a == b
    {
      assert IsAnswer(plan, j, a, entry[a]) && IsAnswer(plan, j, b, entry[b]);
      var outs, script := Routed(plan.bot, plan.events[j]), plan.scripts(j);
      var i1: nat :| IsAnswered(plan, j, i1) && outs[i1].pluginActionId == a && script.sends(i1).id == entry[a];
      var i2: nat :| IsAnswered(plan, j, i2) && outs[i2].pluginActionId == b && script.sends(i2).id == entry[b];
      assert i1 == i2;
    }
  }

  lemma AnswerIsAnswer(plan: Plan, j: nat, p: Progress)
    requires j < |plan.events| && KindOf(plan.events[j]) == New && IsJobOf(plan, j, p.job) && Answering(p.job)
    requires AllAnswers(plan, j, p.job.kept)
    ensures AllAnswers(plan, j, AnswerOne(p).job.kept)
  {
    var job, next := p.job, AnswerOne(p).job;
    forall a <- next.kept
      ensures IsAnswer(plan, j, a, next.kept[a])
    {
      if a in job.kept && next.kept[a] == job.kept[a] {
        assert IsAnswer(plan, j, a, job.kept[a]);
      } else {
        assert IsAnswered(plan, j, job.at);
      }
    }
  }

  lemma MessageAnswers(plan: Plan, j: nat, updates: bool, job: Job, deletion: Status, w: World)
    requires j < |plan.events| && KindOf(plan.events[j]) == New && IsJobOf(plan, j, job) && Answering(job)
    requires Once(plan, j, updates, Underway(job), NotBegun, deletion, w)
    ensures var q := AnswerOne(Progress(job, w.posts));
      Once(plan, j, updates, Underway(q.job), NotBegun, deletion, World(w.cache, q.posts))
  {
    AnswerIsAnswer(plan, j, Progress(job, w.posts));
  }

  lemma MessageStores(plan: Plan, j: nat, e: nat, k: nat, updates: bool, job: Job, deletion: Status, w: World)
    requires AreAbout(plan, j, e, k) && GetOwnIds(plan, j, e) && IsJobOf(plan, j, job)
    requires Once(plan, j, updates, Underway(job), NotBegun, deletion, w)
    ensures Once(plan, j, updates, Done, NotBegun, deletion, World(CacheAfter(job, w.cache), w.posts))
  {
    AnswersInjective(plan, j, e, k, job.kept);
    assert Runs.EntryOf(CacheAfter(job, w.cache), job.key) == job.kept;
  }

  // ---- The handler of the edit ----

  lemma SameDeletesKeeps(ids: set<MsgId>, posts: Posts, posts': Posts, entry: Entry)
    requires SameDeletes(ids, posts, posts')
    ensures UndeletedOn(ids, entry, posts) ==> UndeletedOn(ids, entry, posts')
    ensures DeletedAtMost(1, ids, posts) ==> DeletedAtMost(1, ids, posts')
  {
  }

  lemma UpdateKeeps(ids: set<MsgId>, updates: bool, p: Progress, untouched: bool)
    requires Answering(p.job) && IdsAt(p.job.script, p.job.at) !! ids
    requires p.job.outs[p.job.at].pluginActionId in p.job.stale
    requires EditKeeps(ids, updates, p.job, untouched, p.posts)
    ensures EditKeeps(ids, updates, AnswerOne(p).job, untouched, AnswerOne(p).posts)
    ensures SameDeletes(ids, p.posts, AnswerOne(p).posts)
  {
    if updates {
      UpdateKeepsPromise(ids, p);
    }
  }

  lemma UpdateKeepsPromise(ids: set<MsgId>, p: Progress)
    requires Answering(p.job) && p.job.outs[p.job.at].pluginActionId in p.job.stale && WillUpdate(ids, p.job)
    ensures WillUpdate(ids, AnswerOne(p).job)
  {
  }

  lemma SendKeeps(ids: set<MsgId>, updates: bool, p: Progress, untouched: bool)
    requires Answering(p.job) && IdsAt(p.job.script, p.job.at) !! ids
    requires p.job.outs[p.job.at].pluginActionId !in p.job.stale
    requires EditKeeps(ids, updates, p.job, untouched, p.posts)
    ensures EditKeeps(ids, updates, AnswerOne(p).job, untouched, AnswerOne(p).posts)
    ensures SameDeletes(ids, p.posts, AnswerOne(p).posts)
  {
  }

  lemma AllWillUpdate(plan: Plan, j: nat, e: nat, job: Job)
    requires j < |plan.events| && e < |plan.events| && AllUpdated(plan, j, e) && AllAnswers(plan, j, job.stale)
    requires job.at == 0 && job.outs == Routed(plan.bot, plan.events[e]) && job.script == plan.scripts(e)
    ensures WillUpdate(AnswerIds(plan, j), job)
  {
    forall a <- job.stale
      ensures exists i :: job.at <= i < |job.outs| && job.outs[i].pluginActionId == a
                          && !job.script.updates(i).UpdateFailed?
    {
      assert IsAnswer(plan, j, a, job.stale[a]);
      var i: nat :| IsAnswered(plan, j, i) && Routed(plan.bot, plan.events[j])[i].pluginActionId == a;
      assert Updates(plan, j, e, i);
    }
  }

  lemma EditBegins(plan: Plan, j: nat, e: nat, k: nat, deletion: Status, w: World)
    requires AreAbout(plan, j, e, k)
    requires Once(plan, j, AllUpdated(plan, j, e), Done, NotBegun, deletion, w)
    ensures var job := Start(plan.bot, w.cache, plan.events[e], plan.scripts(e));
      Once(plan, j, AllUpdated(plan, j, e), Done, if job.Some? then Underway(job.value) else Done, deletion, w)
  {
    var start := Start(plan.bot, w.cache, plan.events[e], plan.scripts(e));
    if start.Some? && AllUpdated(plan, j, e) {
      AllWillUpdate(plan, j, e, start.value);
    }
  }

  lemma EditAnswers(plan: Plan, j: nat, e: nat, k: nat, updates: bool, job: Job, deletion: Status, w: World)
    requires AreAbout(plan, j, e, k) && GetOwnIds(plan, j, e) && IsJobOf(plan, e, job) && Answering(job)
    requires Once(plan, j, updates, Done, Underway(job), deletion, w)
    ensures var q := AnswerOne(Progress(job, w.posts));
      Once(plan, j, updates, Done, Underway(q.job), deletion, World(w.cache, q.posts))
  {
    var ids, q := AnswerIds(plan, j), AnswerOne(Progress(job, w.posts));
    assert IdsAt(job.script, job.at) <= NewIds(plan.bot, plan.events[e], plan.scripts(e));
    if job.outs[job.at].pluginActionId in job.stale {
      UpdateKeeps(ids, updates, Progress(job, w.posts), deletion.NotBegun?);
    } else {
      SendKeeps(ids, updates, Progress(job, w.posts), deletion.NotBegun?);
    }
    SameDeletesKeeps(ids, w.posts, q.posts, Runs.EntryOf(w.cache, plan.events[j].OwnId()));
    if deletion.Underway? {
      SameDeletesKeeps(ids, w.posts, q.posts, deletion.job.stale);
    }
  }

  lemma EditRetracts(plan: Plan, j: nat, updates: bool, job: Job, deletion: Status, w: World, a: string)
    requires j < |plan.events| && !Answering(job) && a in job.stale
    requires Once(plan, j, updates, Done, Underway(job), deletion, w)
    ensures var q := RetractStep(Progress(job, w.posts), a);
      Once(plan, j, updates, Done, Underway(q.job), deletion, World(w.cache, q.posts))
  {
  }

  lemma EditStores(plan: Plan, j: nat, e: nat, k: nat, updates: bool, job: Job, deletion: Status, w: World)
    requires AreAbout(plan, j, e, k) && IsJobOf(plan, e, job)
    requires Once(plan, j, updates, Done, Underway(job), deletion, w)
    ensures Once(plan, j, updates, Done, Done, deletion, World(CacheAfter(job, w.cache), w.posts))
  {
    var key := plan.events[j].OwnId();
    var entry := Runs.EntryOf(CacheAfter(job, w.cache), key);
    assert entry == job.kept || entry == map[];
  }

  // ---- The handler of the deletion ----

  lemma DeletionBegins(plan: Plan, j: nat, e: nat, k: nat, message: Status, edit: Status, w: World)
    requires AreAbout(plan, j, e, k)
    requires Once(plan, j, AllUpdated(plan, j, e), message, edit, NotBegun, w)
    requires AllUpdated(plan, j, e) || edit.Done?
    ensures var job := Start(plan.bot, w.cache, plan.events[k], plan.scripts(k));
      Once(plan, j, AllUpdated(plan, j, e), message, edit, if job.Some? then Underway(job.value) else Done, w)
  {
  }

  lemma DeletionRetracts(plan: Plan, j: nat, updates: bool, edit: Status, job: Job, w: World, a: string)
    requires j < |plan.events| && a in job.stale
    requires Once(plan, j, updates, Done, edit, Underway(job), w)
    ensures var q := RetractStep(Progress(job, w.posts), a);
      Once(plan, j, updates, Done, edit, Underway(q.job), World(w.cache, q.posts))
  {
  }

  lemma DeletionStores(plan: Plan, j: nat, e: nat, k: nat, updates: bool, edit: Status, job: Job, w: World)
    requires AreAbout(plan, j, e, k) && IsJobOf(plan, k, job)
    requires Once(plan, j, updates, Done, edit, Underway(job), w)
    ensures Once(plan, j, updates, Done, edit, Done, World(CacheAfter(job, w.cache), w.posts))
  {
  }

  // ---- Every step ----

  ghost predicate OnceIn(plan: Plan, j: nat, e: nat, k: nat, s: State)
    requires j < |plan.events| && e < |plan.events| && k < |plan.events|
  {
    Once(plan, j, AllUpdated(plan, j, e), StatusOf(plan, s, j), StatusOf(plan, s, e), StatusOf(plan, s, k), s.world)
  }

  ghost predicate Holds(plan: Plan, j: nat, e: nat, k: nat, s: State) {
    && AreAbout(plan, j, e, k) && GetOwnIds(plan, j, e) && IsPrivate(plan, Members([j, e, k])) && Orderly(plan, s)
    && Roles(plan, Members([j, e, k]), s)
    && OnceIn(plan, j, e, k, s)
  }

  /** A step of the handler of event i, one of the three. */
  ghost predicate IsStepFor(plan: Plan, i: nat, s: State, step: Step)
    requires Shape(plan, s) && i < |plan.events|
  {
    && Enabled(plan, s, step) && IsWorkerStep(step) && s.workers[step.p].k == i
    && (s.workers[step.p].Working? ==> IsJobOf(plan, i, s.workers[step.p].job))
  }

  /** How far the event of a worker has come after its step. */
  ghost function StatusAfter(plan: Plan, s: State, step: Step): Status
    requires Shape(plan, s) && Enabled(plan, s, step) && IsWorkerStep(step)
  {
    var w := Next(plan, s, step).workers[step.p];
    if w.Working? then Underway(w.job) else Done
  }

  lemma MessageStep(plan: Plan, j: nat, e: nat, k: nat, s: State, step: Step)
    requires AreAbout(plan, j, e, k) && GetOwnIds(plan, j, e) && Orderly(plan, s)
    requires IsStepFor(plan, j, s, step) && OnceIn(plan, j, e, k, s)
    ensures OnceIn(plan, j, e, k, Next(plan, s, step))
  {
    OwnStatus(plan, s, step);
    OtherStatus(plan, s, step, e);
    OtherStatus(plan, s, step, k);
    if step.Begin? {
      MessageBegin(plan, j, e, k, s, step);
    } else if step.AnswerNext? {
      MessageAnswerStep(plan, j, e, k, s, step);
    } else if step.Store? {
      MessageStoreStep(plan, j, e, k, s, step);
    }
  }

  lemma MessageBegin(plan: Plan, j: nat, e: nat, k: nat, s: State, step: Step)
    requires AreAbout(plan, j, e, k) && Shape(plan, s) && IsStepFor(plan, j, s, step) && step.Begin?
    requires Once(plan, j, AllUpdated(plan, j, e), NotBegun, NotBegun, StatusOf(plan, s, k), s.world)
    ensures Once(plan, j, AllUpdated(plan, j, e), StatusAfter(plan, s, step), NotBegun, StatusOf(plan, s, k),
                 Next(plan, s, step).world)
  {
  }

  lemma MessageAnswerStep(plan: Plan, j: nat, e: nat, k: nat, s: State, step: Step)
    requires AreAbout(plan, j, e, k) && GetOwnIds(plan, j, e) && Shape(plan, s)
    requires IsStepFor(plan, j, s, step) && step.AnswerNext?
    requires Once(plan, j, AllUpdated(plan, j, e), Underway(s.workers[step.p].job), NotBegun, StatusOf(plan, s, k),
                  s.world)
    ensures Once(plan, j, AllUpdated(plan, j, e), StatusAfter(plan, s, step), NotBegun, StatusOf(plan, s, k),
                 Next(plan, s, step).world)
  {
    MessageAnswers(plan, j, AllUpdated(plan, j, e), s.workers[step.p].job, StatusOf(plan, s, k), s.world);
  }

  lemma MessageStoreStep(plan: Plan, j: nat, e: nat, k: nat, s: State, step: Step)
    requires AreAbout(plan, j, e, k) && GetOwnIds(plan, j, e) && Shape(plan, s)
    requires IsStepFor(plan, j, s, step) && step.Store?
    requires Once(plan, j, AllUpdated(plan, j, e), Underway(s.workers[step.p].job), NotBegun, StatusOf(plan, s, k),
                  s.world)
    ensures Once(plan, j, AllUpdated(plan, j, e), StatusAfter(plan, s, step), NotBegun, StatusOf(plan, s, k),
                 Next(plan, s, step).world)
  {
    MessageStores(plan, j, e, k, AllUpdated(plan, j, e), s.workers[step.p].job, StatusOf(plan, s, k), s.world);
  }

  lemma EditStep(plan: Plan, j: nat, e: nat, k: nat, s: State, step: Step)
    requires AreAbout(plan, j, e, k) && GetOwnIds(plan, j, e) && Orderly(plan, s)
    requires IsStepFor(plan, e, s, step) && OnceIn(plan, j, e, k, s)
    requires IsHandled(plan, s, j)
    ensures OnceIn(plan, j, e, k, Next(plan, s, step))
  {
    OwnStatus(plan, s, step);
    OtherStatus(plan, s, step, j);
    OtherStatus(plan, s, step, k);
    if step.Begin? {
      EditBegins(plan, j, e, k, StatusOf(plan, s, k), s.world);
    } else {
      match step {
        case AnswerNext(_) => EditAnswerStep(plan, j, e, k, s, step);
        case RetractNext(_, _) => EditRetractStep(plan, j, e, k, s, step);
        case Store(_) => EditStoreStep(plan, j, e, k, s, step);
      }
    }
  }

  lemma EditAnswerStep(plan: Plan, j: nat, e: nat, k: nat, s: State, step: Step)
    requires AreAbout(plan, j, e, k) && GetOwnIds(plan, j, e) && Shape(plan, s)
    requires IsStepFor(plan, e, s, step) && step.AnswerNext?
    requires Once(plan, j, AllUpdated(plan, j, e), Done, Underway(s.workers[step.p].job), StatusOf(plan, s, k), s.world)
    ensures Once(plan, j, AllUpdated(plan, j, e), Done, StatusAfter(plan, s, step), StatusOf(plan, s, k),
                 Next(plan, s, step).world)
  {
    EditAnswers(plan, j, e, k, AllUpdated(plan, j, e), s.workers[step.p].job, StatusOf(plan, s, k), s.world);
  }

  lemma EditRetractStep(plan: Plan, j: nat, e: nat, k: nat, s: State, step: Step)
    requires AreAbout(plan, j, e, k) && GetOwnIds(plan, j, e) && Shape(plan, s)
    requires IsStepFor(plan, e, s, step) && step.RetractNext?
    requires Once(plan, j, AllUpdated(plan, j, e), Done, Underway(s.workers[step.p].job), StatusOf(plan, s, k), s.world)
    ensures Once(plan, j, AllUpdated(plan, j, e), Done, StatusAfter(plan, s, step), StatusOf(plan, s, k),
                 Next(plan, s, step).world)
  {
    EditRetracts(plan, j, AllUpdated(plan, j, e), s.workers[step.p].job, StatusOf(plan, s, k), s.world, step.action);
  }

  lemma EditStoreStep(plan: Plan, j: nat, e: nat, k: nat, s: State, step: Step)
    requires AreAbout(plan, j, e, k) && GetOwnIds(plan, j, e) && Shape(plan, s)
    requires IsStepFor(plan, e, s, step) && step.Store?
    requires Once(plan, j, AllUpdated(plan, j, e), Done, Underway(s.workers[step.p].job), StatusOf(plan, s, k), s.world)
    ensures Once(plan, j, AllUpdated(plan, j, e), Done, StatusAfter(plan, s, step), StatusOf(plan, s, k),
                 Next(plan, s, step).world)
  {
    EditStores(plan, j, e, k, AllUpdated(plan, j, e), s.workers[step.p].job, StatusOf(plan, s, k), s.world);
  }

  lemma DeletionBegin(plan: Plan, j: nat, e: nat, k: nat, s: State, step: Step)
    requires AreAbout(plan, j, e, k) && Shape(plan, s) && IsStepFor(plan, k, s, step) && step.Begin?
    requires AllUpdated(plan, j, e) || StatusOf(plan, s, e).Done?
    requires Once(plan, j, AllUpdated(plan, j, e), StatusOf(plan, s, j), StatusOf(plan, s, e), NotBegun, s.world)
    ensures Once(plan, j, AllUpdated(plan, j, e), StatusOf(plan, s, j), StatusOf(plan, s, e),
                 StatusAfter(plan, s, step), Next(plan, s, step).world)
  {
    DeletionBegins(plan, j, e, k, StatusOf(plan, s, j), StatusOf(plan, s, e), s.world);
  }

  lemma DeletionStep(plan: Plan, j: nat, e: nat, k: nat, s: State, step: Step)
    requires AreAbout(plan, j, e, k) && Orderly(plan, s) && IsStepFor(plan, k, s, step) && OnceIn(plan, j, e, k, s)
    requires AllUpdated(plan, j, e) || IsHandled(plan, s, e)
    ensures OnceIn(plan, j, e, k, Next(plan, s, step))
  {
    OwnStatus(plan, s, step);
    OtherStatus(plan, s, step, j);
    OtherStatus(plan, s, step, e);
    if step.Begin? {
      DeletionBegin(plan, j, e, k, s, step);
    } else {
      DeletionCall(plan, j, e, k, s, step);
    }
  }

  lemma DeletionCall(plan: Plan, j: nat, e: nat, k: nat, s: State, step: Step)
    requires AreAbout(plan, j, e, k) && Shape(plan, s) && IsStepFor(plan, k, s, step) && !step.Begin?
    requires Once(plan, j, AllUpdated(plan, j, e), Done, StatusOf(plan, s, e), Underway(s.workers[step.p].job), s.world)
    ensures Once(plan, j, AllUpdated(plan, j, e), Done, StatusOf(plan, s, e), StatusAfter(plan, s, step),
                 Next(plan, s, step).world)
  {
    if step.RetractNext? {
      DeletionRetractStep(plan, j, e, k, s, step);
    } else {
      DeletionStoreStep(plan, j, e, k, s, step);
    }
  }

  lemma DeletionRetractStep(plan: Plan, j: nat, e: nat, k: nat, s: State, step: Step)
    requires AreAbout(plan, j, e, k) && Shape(plan, s) && IsStepFor(plan, k, s, step) && step.RetractNext?
    requires Once(plan, j, AllUpdated(plan, j, e), Done, StatusOf(plan, s, e), Underway(s.workers[step.p].job), s.world)
    ensures Once(plan, j, AllUpdated(plan, j, e), Done, StatusOf(plan, s, e), StatusAfter(plan, s, step),
                 Next(plan, s, step).world)
  {
    var updates, job := AllUpdated(plan, j, e), s.workers[step.p].job;
    DeletionRetracts(plan, j, updates, StatusOf(plan, s, e), job, s.world, step.action);
  }

  lemma DeletionStoreStep(plan: Plan, j: nat, e: nat, k: nat, s: State, step: Step)
    requires AreAbout(plan, j, e, k) && Shape(plan, s) && IsStepFor(plan, k, s, step) && step.Store?
    requires Once(plan, j, AllUpdated(plan, j, e), Done, StatusOf(plan, s, e), Underway(s.workers[step.p].job), s.world)
    ensures Once(plan, j, AllUpdated(plan, j, e), Done, StatusOf(plan, s, e), StatusAfter(plan, s, step),
                 Next(plan, s, step).world)
  {
    DeletionStores(plan, j, e, k, AllUpdated(plan, j, e), StatusOf(plan, s, e), s.workers[step.p].job, s.world);
  }

  lemma OwnsAnswers(plan: Plan, j: nat, group: set<nat>)
    requires j < |plan.events| && j in group && KindOf(plan.events[j]) == New
    ensures plan.events[j].OwnId() in Part(plan, group, true).keys
    ensures AnswerIds(plan, j) <= Part(plan, group, true).ids
  {
    PartCovers(plan, group, j);
    forall i: nat | IsAnswered(plan, j, i)
      ensures plan.scripts(j).sends(i).id in Part(plan, group, true).ids
    {
      assert plan.scripts(j).sends(i).id in IdsAt(plan.scripts(j), i);
    }
  }

  lemma OnceElsewhere(plan: Plan, j: nat, e: nat, k: nat, message: Status, edit: Status, deletion: Status,
                      w: World, w': World)
    requires AreAbout(plan, j, e, k) && Agree(Part(plan, Members([j, e, k]), true), w, w')
    requires Once(plan, j, AllUpdated(plan, j, e), message, edit, deletion, w)
    ensures Once(plan, j, AllUpdated(plan, j, e), message, edit, deletion, w')
  {
    assert [j, e, k][0] in Members([j, e, k]);
    OwnsAnswers(plan, j, Members([j, e, k]));
  }

  /** No two of them overlap but the edit and the deletion, and these only if the edit updates every answer. */
  ghost predicate MayDelete(plan: Plan, j: nat, e: nat, k: nat, s: State)
    requires AreAbout(plan, j, e, k)
  {
    && (HasBegun(plan, s, e) ==> IsHandled(plan, s, j))
    && (HasBegun(plan, s, k) ==> AllUpdated(plan, j, e) || IsHandled(plan, s, e))
  }

  lemma MemberStep(plan: Plan, j: nat, e: nat, k: nat, s: State, step: Step)
    requires Holds(plan, j, e, k, s) && Enabled(plan, s, step) && MayDelete(plan, j, e, k, Next(plan, s, step))
    requires IsWorkerStep(step) && s.workers[step.p].k in Members([j, e, k])
    ensures OnceIn(plan, j, e, k, Next(plan, s, step))
  {
    var x := s.workers[step.p].k;
    OwnStatus(plan, s, step);
    if s.workers[step.p].Working? {
      WorkIsJob(plan, Members([j, e, k]), s, step.p);
    }
    assert x == j || x == e || x == k;
    assert x != j ==> StatusOf(plan, Next(plan, s, step), j) == StatusOf(plan, s, j) by {
      if x != j {
        OtherStatus(plan, s, step, j);
      }
    }
    assert x != e ==> StatusOf(plan, Next(plan, s, step), e) == StatusOf(plan, s, e) by {
      if x != e {
        OtherStatus(plan, s, step, e);
      }
    }
    if x == j {
      MessageStep(plan, j, e, k, s, step);
    } else if x == e {
      EditStep(plan, j, e, k, s, step);
    } else {
      DeletionStep(plan, j, e, k, s, step);
    }
  }

  lemma BystanderStep(plan: Plan, j: nat, e: nat, k: nat, s: State, step: Step)
    requires Holds(plan, j, e, k, s) && Enabled(plan, s, step)
    requires IsWorkerStep(step) && s.workers[step.p].k !in Members([j, e, k])
    ensures OnceIn(plan, j, e, k, Next(plan, s, step))
  {
    var s', group := Next(plan, s, step), Members([j, e, k]);
    assert [j, e, k][0] in group && [j, e, k][1] in group && [j, e, k][2] in group;
    OtherStatus(plan, s, step, j);
    OtherStatus(plan, s, step, e);
    OtherStatus(plan, s, step, k);
    HandlerStep(plan, group, s, step);
    OnceElsewhere(plan, j, e, k, StatusOf(plan, s, j), StatusOf(plan, s, e), StatusOf(plan, s, k), s.world, s'.world);
  }

  lemma OtherStep(plan: Plan, j: nat, e: nat, k: nat, s: State, step: Step)
    requires Holds(plan, j, e, k, s) && Enabled(plan, s, step) && !IsWorkerStep(step)
    ensures OnceIn(plan, j, e, k, Next(plan, s, step))
  {
    var s' := Next(plan, s, step);
    StepView(plan, s, step);
    SameViewStatus(plan, s, s', j);
    SameViewStatus(plan, s, s', e);
    SameViewStatus(plan, s, s', k);
  }

  lemma NextHolds(plan: Plan, j: nat, e: nat, k: nat, s: State, step: Step)
    requires Holds(plan, j, e, k, s) && Enabled(plan, s, step) && MayDelete(plan, j, e, k, Next(plan, s, step))
    ensures Holds(plan, j, e, k, Next(plan, s, step))
  {
    NextKeepsInv(plan, s, step);
    NextKeepsRoles(plan, Members([j, e, k]), s, step);
    if !IsWorkerStep(step) {
      OtherStep(plan, j, e, k, s, step);
    } else if s.workers[step.p].k in Members([j, e, k]) {
      MemberStep(plan, j, e, k, s, step);
    } else {
      BystanderStep(plan, j, e, k, s, step);
    }
  }

  /** The edit and the deletion overlap only if the deletion can overtake the edit. */
  lemma SeldomOverlap(plan: Plan, j: nat, e: nat, k: nat, s: State)
    requires AreAbout(plan, j, e, k) && plan.PartitionOf(j) == plan.PartitionOf(e) && Reachable(plan, s)
    requires AllUpdated(plan, j, e) || !CanOvertake(plan, e, k)
    ensures MayDelete(plan, j, e, k, s)
  {
    if HasBegun(plan, s, e) && !IsHandled(plan, s, j) {
      OvertakenOnlyIf(plan, s, j, e);
    }
    if HasBegun(plan, s, k) && !IsHandled(plan, s, e) {
      OvertakenOnlyIf(plan, s, e, k);
    }
  }

  lemma {:induction false} ExecHolds(plan: Plan, j: nat, e: nat, k: nat, s: State, steps: seq<Step>)
    requires Holds(plan, j, e, k, s) && plan.PartitionOf(j) == plan.PartitionOf(e)
    requires AllUpdated(plan, j, e) || !CanOvertake(plan, e, k)
    requires Reachable(plan, s) && Exec(plan, s, steps).Some?
    ensures Holds(plan, j, e, k, Exec(plan, s, steps).value)
    decreases |steps|
  {
    if steps != [] {
      ReachMore(plan, s, steps[0]);
      SeldomOverlap(plan, j, e, k, Next(plan, s, steps[0]));
      NextHolds(plan, j, e, k, s, steps[0]);
      ExecHolds(plan, j, e, k, Next(plan, s, steps[0]), steps[1..]);
    }
  }

  lemma NeverTwice(plan: Plan, j: nat, e: nat, k: nat, s: State)
    requires AreAbout(plan, j, e, k) && GetOwnIds(plan, j, e) && IsPrivate(plan, Members([j, e, k]))
    requires plan.PartitionOf(j) == plan.PartitionOf(e)
    requires AllUpdated(plan, j, e) || !CanOvertake(plan, e, k)
    requires Reachable(plan, s)
    ensures DeletedAtMost(1, AnswerIds(plan, j), s.world.posts)
  {
    var steps :| Exec(plan, Init(plan), steps) == Some(s);
    InitRoles(plan, Members([j, e, k]));
    assert StatusOf(plan, Init(plan), j).NotBegun? && StatusOf(plan, Init(plan), e).NotBegun?;
    assert StatusOf(plan, Init(plan), k).NotBegun?;
    ExecHolds(plan, j, e, k, Init(plan), steps);
  }

  // ---- When it happens ----

  /** What is kept was posted. */
  lemma {:induction false} KeptIsPosted(p: Progress)
    requires p.job.at <= |p.job.outs| && p.job.stale == map[] && p.job.kept.Values <= p.posts.Keys
    ensures AnswerAll(p).job.kept.Values <= AnswerAll(p).posts.Keys && AnswerAll(p).job.stale == map[]
    decreases |p.job.outs| - p.job.at
  {
    if Answering(p.job) {
      KeptIsPosted(AnswerOne(p));
    }
  }

  lemma KeptAreAnswers(plan: Plan, j: nat, p: Progress)
    requires p.job.at == 0 && p.job.stale == map[] && p.job.kept == map[]
    requires j < |plan.events| && DistinctActions(p.job.outs)
    requires p.job.outs == Routed(plan.bot, plan.events[j]) && p.job.script == plan.scripts(j)
    ensures AllAnswers(plan, j, AnswerAll(p).job.kept)
  {
    forall a <- AnswerAll(p).job.kept
      ensures IsAnswer(plan, j, a, AnswerAll(p).job.kept[a])
    {
      Runs.AnswerAllKeys(p, a);
      var i: nat :| i < |p.job.outs| && p.job.outs[i].pluginActionId == a
        && Runs.Succeeds(p.job.stale, p.job.outs, p.job.script, i);
      Runs.AnswerAllIds(p, i);
      assert IsAnswered(plan, j, i);
    }
  }

  /** Sending issues no delete. */
  lemma {:induction false} SendsDeleteNothing(p: Progress)
    requires p.job.at <= |p.job.outs| && p.job.stale == map[] && forall id <- p.posts :: p.posts[id].deletes == 0
    ensures forall id <- AnswerAll(p).posts :: AnswerAll(p).posts[id].deletes == 0
    decreases |p.job.outs| - p.job.at
  {
    if Answering(p.job) {
      SendsDeleteNothing(AnswerOne(p));
    }
  }

  /** The world in which the message is all that happened. */
  ghost predicate NamesAnswers(plan: Plan, j: nat, w: World)
    requires j < |plan.events|
  {
    && AllAnswers(plan, j, Runs.EntryOf(w.cache, plan.events[j].OwnId()))
    && DeletedAtMost(0, AnswerIds(plan, j), w.posts)
    && forall i: nat | IsAnswered(plan, j, i) :: NamesAnswer(plan, j, w, i)
  }

  ghost predicate NamesAnswer(plan: Plan, j: nat, w: World, i: nat)
    requires j < |plan.events| && IsAnswered(plan, j, i)
  {
    var key, a := plan.events[j].OwnId(), Routed(plan.bot, plan.events[j])[i].pluginActionId;
    && key in w.cache && a in w.cache[key]
    && w.cache[key][a] == plan.scripts(j).sends(i).id && w.cache[key][a] in w.posts
  }

  /** Once a message is handled, its entry names its answers. */
  lemma MessageLeaves(plan: Plan, j: nat)
    requires j < |plan.events| && KindOf(plan.events[j]) == New && DistinctNames(plan.bot)
    ensures NamesAnswers(plan, j, Fold(plan, [j]))
  {
    var w0, e := World(map[], map[]), plan.events[j];
    var p := Progress(Job(e.OwnId(), Routed(plan.bot, e), plan.scripts(j), 0, map[], map[], false), w0.posts);
    RoutedIdentity(plan.bot, e);
    Runs.AnswerAllFrame(p);
    KeptIsPosted(p);
    KeptAreAnswers(plan, j, p);
    SendsDeleteNothing(p);
    RetractNone(AnswerAll(p).posts, p.job.script);
    assert [j] == [] + [j];
    FoldLast(plan, [], j);
    forall i: nat | IsAnswered(plan, j, i)
      ensures NamesAnswer(plan, j, Fold(plan, [j]), i)
    {
      Runs.AnswerAllIds(p, i);
      var a := p.job.outs[i].pluginActionId;
      assert AnswerAll(p).job.kept[a] in AnswerAll(p).job.kept.Values;
    }
  }

  /** Answering leaves the deletes of a response alone, unless the driver gives its id to another one. */
  lemma {:induction false} AnswersDeleteNothing(p: Progress, r: MsgId)
    requires p.job.at <= |p.job.outs| && r in p.posts
    requires forall i: nat | i < |p.job.outs| :: r !in IdsAt(p.job.script, i)
    ensures r in AnswerAll(p).posts && AnswerAll(p).posts[r].deletes == p.posts[r].deletes
    decreases |p.job.outs| - p.job.at
  {
    if Answering(p.job) {
      assert r !in IdsAt(p.job.script, p.job.at);
      AnswersDeleteNothing(AnswerOne(p), r);
    }
  }

  /** A handler deletes, once, a response that it leaves stale. */
  lemma StaleIsDeleted(job: Job, w: World, a: string)
    requires job.at == 0 <= |job.outs| && a in job.stale && job.stale[a] in w.posts && DistinctActions(job.outs)
    requires !Runs.IsUpdated(job.outs, job.script, a)
    requires forall b <- job.stale :: job.stale[b] == job.stale[a] ==> b == a
    requires forall i: nat | i < |job.outs| :: job.stale[a] !in IdsAt(job.script, i)
    ensures job.stale[a] in Complete(job, w).posts
    ensures Complete(job, w).posts[job.stale[a]].deletes == w.posts[job.stale[a]].deletes + 1
  {
    var p, r := Progress(job, w.posts), job.stale[a];
    var stale := AnswerAll(p).job.stale;
    AnswersDeleteNothing(p, r);
    forall b <- stale
      ensures b in job.stale && stale[b] == job.stale[b]
    {
      Runs.AnswerAllKeys(p, b);
    }
    Runs.AnswerAllKeys(p, a);
    assert (set b | b in stale && stale[b] == r) == {a};
  }

  /** Both handlers start from the same entry, in which the response of the action is of no other. */
  ghost predicate Share(job1: Job, job2: Job, a: string) {
    && job1.at == 0 && DistinctActions(job1.outs) && !Runs.IsUpdated(job1.outs, job1.script, a)
    && job2.at == 0 && job2.outs == [] && job1.stale == job2.stale
    && a in job1.stale && (forall b <- job1.stale :: job1.stale[b] == job1.stale[a] ==> b == a)
    && forall i: nat | i < |job1.outs| :: job1.stale[a] !in IdsAt(job1.script, i)
  }

  /** Two workers that hold the same response, and do not update it, both delete it. */
  lemma BothFinish(plan: Plan, s: State, p: nat, q: nat, a: string) returns (end: State)
    requires Reachable(plan, s) && Shape(plan, s) && p < plan.count && q < plan.count && p != q
    requires s.workers[p].Working? && s.workers[q].Working? && Share(s.workers[p].job, s.workers[q].job, a)
    requires s.workers[p].job.stale[a] in s.world.posts
    ensures Reachable(plan, end)
    ensures var r := s.workers[p].job.stale[a];
      r in end.world.posts && end.world.posts[r].deletes == s.world.posts[r].deletes + 2
  {
    StaleIsDeleted(s.workers[p].job, s.world, a);
    var between := Finish(plan, s, p);
    StaleIsDeleted(s.workers[q].job, between.world, a);
    end := Finish(plan, between, q);
  }

  lemma BeginFound(plan: Plan, s: State, p: nat, job: Job)
    requires Reachable(plan, s) && Shape(plan, s) && p < plan.count && s.workers[p].Taken?
    requires var i := s.workers[p].k; Start(plan.bot, s.world.cache, plan.events[i], plan.scripts(i)) == Some(job)
    ensures var s' := s.(workers := s.workers[p := Working(s.workers[p].k, job)]);
      Reachable(plan, s') && Shape(plan, s')
  {
    ReachableInv(plan, s);
    ReachMore(plan, s, Begin(p));
    NextKeepsInv(plan, s, Begin(p));
  }

  /** The edit waits for its worker, the message is answered, and the deletion has not arrived. */
  lemma NamedWhileWaiting(plan: Plan, j: nat, e: nat, k: nat, s: State)
    requires AreAbout(plan, j, e, k) && IsDeletion(plan, [j, e, k]) && DistinctNames(plan.bot)
    requires Reachable(plan, s) && s.next == k && !IsHandled(plan, s, e)
    requires var p := plan.PartitionOf(e); p < |s.workers| == |s.handled| && s.workers[p] == Taken(e)
    ensures NamesAnswers(plan, j, s.world)
  {
    var order := [j, e, k];
    ReachableInv(plan, s);
    if HasBegun(plan, s, k) {
      assert Sane(plan, s, plan.PartitionOf(k));
      BegunReceived(plan, s, k);
    }
    var n := TrackedAt(plan, order, s);
    assert plan.PartitionOf(order[0]) == plan.PartitionOf(order[1]);
    EarlierHandled(plan, s, j, e);
    assert HasBegun(plan, s, order[0]) && !HasBegun(plan, s, order[1]);
    assert n == 1 && order[..1] == [j];
    MessageLeaves(plan, j);
    AgreeSymmetric(Part(plan, Members(order), true), s.world, Fold(plan, [j]));
    NamedElsewhere(plan, j, e, k, Fold(plan, [j]), s.world);
  }

  lemma NamedElsewhere(plan: Plan, j: nat, e: nat, k: nat, w: World, w': World)
    requires AreAbout(plan, j, e, k) && Agree(Part(plan, Members([j, e, k]), true), w, w') && NamesAnswers(plan, j, w)
    ensures NamesAnswers(plan, j, w')
  {
    assert [j, e, k][0] in Members([j, e, k]);
    OwnsAnswers(plan, j, Members([j, e, k]));
    forall i: nat | IsAnswered(plan, j, i)
      ensures NamesAnswer(plan, j, w', i)
    {
      assert NamesAnswer(plan, j, w, i) && plan.scripts(j).sends(i).id in AnswerIds(plan, j);
    }
  }

  /** The jobs that the edit and the deletion begin with. */
  lemma BothFind(plan: Plan, j: nat, e: nat, k: nat, i: nat, w: World) returns (job1: Job, job2: Job)
    requires AreAbout(plan, j, e, k) && GetOwnIds(plan, j, e)
    requires IsVersion(plan, e, plan.events[k].DeletedId()) && DistinctNames(plan.bot)
    requires NamesAnswers(plan, j, w) && IsAnswered(plan, j, i) && !Updates(plan, j, e, i)
    ensures Start(plan.bot, w.cache, plan.events[e], plan.scripts(e)) == Some(job1)
    ensures Start(plan.bot, w.cache, plan.events[k], plan.scripts(k)) == Some(job2)
    ensures var a, r := Routed(plan.bot, plan.events[j])[i].pluginActionId, plan.scripts(j).sends(i).id;
      Share(job1, job2, a) && job1.stale[a] == r && r in w.posts && w.posts[r].deletes == 0
  {
    var key, r := plan.events[j].OwnId(), plan.scripts(j).sends(i).id;
    assert NamesAnswer(plan, j, w, i) && r in AnswerIds(plan, j);
    job1 := Job(key, Routed(plan.bot, plan.events[e]), plan.scripts(e), 0, w.cache[key], map[], true);
    job2 := Job(key, [], plan.scripts(k), 0, w.cache[key], map[], true);
    RoutedIdentity(plan.bot, plan.events[e]);
    AnswersInjective(plan, j, e, k, w.cache[key]);
    forall n: nat | n < |job1.outs|
      ensures r !in IdsAt(job1.script, n)
    {
      assert IdsAt(job1.script, n) <= NewIds(plan.bot, plan.events[e], plan.scripts(e));
    }
  }

  /** The deletion arrives while the edit waits, and the workers of both begin. */
  lemma BothBegin(plan: Plan, s: State, p: nat, q: nat, job1: Job, job2: Job) returns (s': State)
    requires Reachable(plan, s) && Orderly(plan, s) && Enabled(plan, s, HandOver) && p < plan.count
    requires s.workers[p].Taken? && q == plan.PartitionOf(s.next) && p != q
    requires var e := s.workers[p].k; Start(plan.bot, s.world.cache, plan.events[e], plan.scripts(e)) == Some(job1)
    requires Start(plan.bot, s.world.cache, plan.events[s.next], plan.scripts(s.next)) == Some(job2)
    ensures Reachable(plan, s') && Shape(plan, s') && s'.world == s.world
    ensures s'.workers[p] == Working(s.workers[p].k, job1) && s'.workers[q] == Working(s.next, job2)
  {
    ReachMore(plan, s, HandOver);
    NextKeepsInv(plan, s, HandOver);
    var s1 := Next(plan, s, HandOver);
    BeginFound(plan, s1, p, job1);
    var s2 := s1.(workers := s1.workers[p := Working(s.workers[p].k, job1)]);
    BeginFound(plan, s2, q, job2);
    s' := s2.(workers := s2.workers[q := Working(s.next, job2)]);
  }

  /** The edit and the deletion both look up the entry before either of them stores its result. */
  lemma BothDelete(plan: Plan, j: nat, e: nat, k: nat, i: nat) returns (s: State)
    requires AreAbout(plan, j, e, k) && GetOwnIds(plan, j, e) && IsDeletion(plan, [j, e, k]) && DistinctNames(plan.bot)
    requires CanOvertake(plan, e, k) && IsAnswered(plan, j, i) && !Updates(plan, j, e, i)
    ensures Reachable(plan, s)
    ensures var r := plan.scripts(j).sends(i).id; r in s.world.posts && s.world.posts[r].deletes == 2
  {
    var p, q := plan.PartitionOf(e), plan.PartitionOf(k);
    var before := Dwell(plan, e, k);
    NamedWhileWaiting(plan, j, e, k, before);
    ReachableInv(plan, before);
    var job1, job2 := BothFind(plan, j, e, k, i, before.world);
    var working := BothBegin(plan, before, p, q, job1, job2);
    s := BothFinish(plan, working, p, q, Routed(plan.bot, plan.events[j])[i].pluginActionId);
  }

  ghost predicate SomeAnswerDeletedTwice(plan: Plan, j: nat, s: State)
    requires j < |plan.events|
  {
    exists r <- AnswerIds(plan, j) :: r in s.world.posts && s.world.posts[r].deletes > 1
  }

  /**
   In some reachable state an answer to the message has been deleted twice if and only if the deletion can overtake
   the edit and the edit leaves some answer without an update.
   */
  lemma DeletedTwiceIff(plan: Plan, j: nat, e: nat, k: nat)
    requires AreAbout(plan, j, e, k) && GetOwnIds(plan, j, e) && IsDeletion(plan, [j, e, k]) && DistinctNames(plan.bot)
    ensures (exists s :: Reachable(plan, s) && SomeAnswerDeletedTwice(plan, j, s))
      <==> CanOvertake(plan, e, k) && !AllUpdated(plan, j, e)
  {
    if CanOvertake(plan, e, k) && !AllUpdated(plan, j, e) {
      var i: nat :| IsAnswered(plan, j, i) && !Updates(plan, j, e, i);
      var s := BothDelete(plan, j, e, k, i);
      assert plan.scripts(j).sends(i).id in AnswerIds(plan, j);
      assert SomeAnswerDeletedTwice(plan, j, s);
    } else {
      assert plan.PartitionOf([j, e, k][0]) == plan.PartitionOf([j, e, k][1]);
      forall s | Reachable(plan, s)
        ensures !SomeAnswerDeletedTwice(plan, j, s)
      {
        NeverTwice(plan, j, e, k, s);
      }
    }
  }
}
