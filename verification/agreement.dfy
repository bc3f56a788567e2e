/**
 The edit chain of one message in the middle of everything else: other messages come in between, and the workers
 of all queues run at once. What users see of the chain is still decided by its own versions.
 */
module Agreement {
  import opened Messages
  import opened Actions
  import opened Reconcile
  import opened Dispatch
  import opened Confluence
  import opened EditChain
  import opened Runs

  /** The events whose original message id is one of these, set apart in a queue of their own. */
  function Beside(plan: Plan, mine: set<MsgId>): Plan {
    plan.(partition := id => if id in mine then 0 else 1, count := 2)
  }

  /** Their positions in the stream. */
  function Positions(plan: Plan, mine: set<MsgId>): seq<nat> {
    Arrived(Beside(plan, mine), |plan.events|, 0)
  }

  /** The ids that the driver hands out for them. */
  ghost function ResponsesTo(plan: Plan, mine: set<MsgId>): set<MsgId> {
    ZoneOf(Beside(plan, mine), 0).ids
  }

  /** The events at these positions that the bot does not ignore, with what the driver answers. */
  function VersionsAt(plan: Plan, ks: seq<nat>): (versions: seq<Turn>)
    ensures forall v <- versions :: v.Handled?
  {
    if ks == [] then []
    else
      var before, k := ks[..|ks| - 1], ks[|ks| - 1];
      VersionsAt(plan, before)
      + if k < |plan.events| && !KindOf(plan.events[k]).Ignored? then [Handled(plan.events[k], plan.scripts(k))] else []
  }

  /** Of the responses with these ids, users see one per action, with the given texts. */
  ghost predicate ShowsAmong(w: World, ids: set<MsgId>, texts: map<string, string>) {
    exists entry: Entry :: entry.Keys == texts.Keys && NamesLive(w, ids, texts, entry)
  }

  ghost predicate NamesLive(w: World, ids: set<MsgId>, texts: map<string, string>, entry: Entry)
    requires entry.Keys == texts.Keys
  {
    && (forall a <- entry, b <- entry :: entry[a] == entry[b] ==> a == b)
    && LiveIds(w.posts) * ids == entry.Values
    && (forall a <- entry :: entry[a] in w.posts && w.posts[entry[a]].text == texts[a])
  }

  lemma {:induction false} FoldIsRun(plan: Plan, ks: seq<nat>)
    ensures Fold(plan, ks) == After(plan.bot, World(map[], map[]), VersionsAt(plan, ks))
  {
    if ks != [] {
      var before := VersionsAt(plan, ks[..|ks| - 1]);
      FoldIsRun(plan, ks[..|ks| - 1]);
      if ks[|ks| - 1] < |plan.events| && !KindOf(plan.events[ks[|ks| - 1]]).Ignored? {
        assert VersionsAt(plan, ks)[..|before|] == before;
      } else {
        assert VersionsAt(plan, ks) == before;
      }
    }
  }

  lemma {:induction false} SequentialBeside(plan: Plan, mine: set<MsgId>, n: nat)
    requires n <= |plan.events|
    ensures Sequential(Beside(plan, mine), n) == Sequential(plan, n)
  {
    if n > 0 {
      SequentialBeside(plan, mine, n - 1);
    }
  }

  /** The world in which only these events happened. */
  ghost function Alone(plan: Plan, mine: set<MsgId>): World {
    Fold(Beside(plan, mine), Positions(plan, mine))
  }

  /** After a complete concurrent run the responses to these events are those of the world in which they are alone. */
  lemma AsIfAlone(plan: Plan, s: State, mine: set<MsgId>)
    requires Aligned(plan) && Reachable(plan, s) && s.main.Returned? && Aligned(Beside(plan, mine))
    ensures SamePosts(ResponsesTo(plan, mine), s.world.posts, Alone(plan, mine).posts)
    ensures Alone(plan, mine).posts.Keys <= ResponsesTo(plan, mine)
  {
    var view := Beside(plan, mine);
    Confluent(plan, s);
    SequentialBeside(plan, mine, |plan.events|);
    SequentialByQueue(view, |plan.events|, 0);
    PositionsAreMine(plan, mine);
    ZoneCoversAll(view, Positions(plan, mine), 0);
    FoldWithin(view, Positions(plan, mine), ZoneOf(view, 0));
  }

  lemma PositionsAreMine(plan: Plan, mine: set<MsgId>)
    ensures Mine(Beside(plan, mine), Positions(plan, mine), 0)
  {
    ArrivedExactly(Beside(plan, mine), |plan.events|, 0);
  }

  lemma SameLive(ids: set<MsgId>, posts: Posts, alone: Posts)
    requires SamePosts(ids, posts, alone) && alone.Keys <= ids
    ensures LiveIds(posts) * ids == LiveIds(alone)
  {
  }

  lemma NamesLiveIff(ids: set<MsgId>, w: World, alone: World, texts: map<string, string>, entry: Entry)
    requires SamePosts(ids, w.posts, alone.posts) && alone.posts.Keys <= ids && entry.Keys == texts.Keys
    ensures NamesLive(w, ids, texts, entry) <==> ShowsAs(World(map[], map[]), alone, texts, entry)
  {
    SameLive(ids, w.posts, alone.posts);
    assert LiveIds(World(map[], map[]).posts) == {};
    if LiveIds(alone.posts) == entry.Values {
      forall a <- entry
        ensures entry[a] in w.posts && entry[a] in alone.posts && w.posts[entry[a]] == alone.posts[entry[a]]
      {
        assert entry[a] in entry.Values && entry[a] in LiveIds(alone.posts);
      }
    }
  }

  /** The latest answers are what is seen among the responses exactly when the world of the chain alone shows them. */
  lemma ShowsAmongIff(ids: set<MsgId>, w: World, alone: World, texts: map<string, string>)
    requires SamePosts(ids, w.posts, alone.posts) && alone.posts.Keys <= ids
    ensures ShowsAmong(w, ids, texts) <==> Shows(World(map[], map[]), alone, texts)
  {
    forall entry: Entry | entry.Keys == texts.Keys
      ensures NamesLive(w, ids, texts, entry) <==> ShowsAs(World(map[], map[]), alone, texts, entry)
    {
      NamesLiveIff(ids, w, alone, texts, entry);
    }
    if entry :| ShowsAs(World(map[], map[]), alone, texts, entry) {
      assert NamesLive(w, ids, texts, entry);
    }
  }

  /** The versions of one message, posted and edited. */
  ghost predicate AreVersions(plan: Plan, key: MsgId, versions: seq<Turn>) {
    && versions != [] && IsChain(plan.bot, key, versions)
    && HonestRun(plan.bot, World(map[], map[]), versions)
  }

  /**
   After a complete concurrent run users see, of all responses to a message, exactly those to its latest text if and
   only if no version before the latest has lasting answers after a version that had none.
   */
  lemma ChainAgreesAmongOthers(plan: Plan, s: State, mine: set<MsgId>, key: MsgId)
    requires Aligned(plan) && Reachable(plan, s) && s.main.Returned? && Aligned(Beside(plan, mine))
    requires DistinctNames(plan.bot) && AreVersions(plan, key, VersionsAt(plan, Positions(plan, mine)))
    ensures var versions := VersionsAt(plan, Positions(plan, mine));
      ShowsAmong(s.world, ResponsesTo(plan, mine), Expected(plan.bot, versions))
      <==> StaysSilent(Silent(plan.bot, versions[..|versions| - 1]))
  {
    var versions := VersionsAt(plan, Positions(plan, mine));
    AsIfAlone(plan, s, mine);
    AloneIsRun(plan, mine);
    ShowsAmongIff(ResponsesTo(plan, mine), s.world, Alone(plan, mine), Expected(plan.bot, versions));
    ChainAfter(plan.bot, World(map[], map[]), key, versions);
    FollowsIff(plan.bot, versions[..|versions| - 1]);
  }

  lemma {:induction false} VersionsBeside(plan: Plan, mine: set<MsgId>, ks: seq<nat>)
    ensures VersionsAt(Beside(plan, mine), ks) == VersionsAt(plan, ks)
  {
    if ks != [] {
      VersionsBeside(plan, mine, ks[..|ks| - 1]);
    }
  }

  lemma AloneIsRun(plan: Plan, mine: set<MsgId>)
    ensures Alone(plan, mine)
      == After(plan.bot, World(map[], map[]), VersionsAt(plan, Positions(plan, mine)))
  {
    FoldIsRun(Beside(plan, mine), Positions(plan, mine));
    VersionsBeside(plan, mine, Positions(plan, mine));
  }
}
