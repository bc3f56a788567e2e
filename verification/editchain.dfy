/**
 A message, its edits and its deletion, with a driver that never fails and a cache that evicts nothing: exactly
 when do users see the answers to the latest text and no others?
 */
module EditChain {
  import opened Messages
  import opened Answers
  import opened Actions
  import opened Reconcile
  import opened Runs

  // ---- What users see ----

  function LiveIds(posts: Posts): set<MsgId> {
    set id | id in posts && posts[id].live
  }

  /** The entry names exactly the live posts added to w0, one per action, with the given texts. */
  ghost predicate ShowsAs(w0: World, w: World, texts: map<string, string>, entry: Entry) {
    && entry.Keys == texts.Keys
    && (forall a <- entry, b <- entry :: entry[a] == entry[b] ==> a == b)
    && entry.Values !! w0.posts.Keys
    && LiveIds(w.posts) == LiveIds(w0.posts) + entry.Values
    && (forall a <- entry :: entry[a] in w.posts && w.posts[entry[a]].text == texts[a])
  }

  /** Users see one response per action, with the given texts, beside what they saw in w0. */
  ghost predicate Shows(w0: World, w: World, texts: map<string, string>) {
    exists entry :: ShowsAs(w0, w, texts, entry)
  }

  // ---- What they should see ----

  /** An answer shows until further notice if it updates a tracked response or is not ephemeral. */
  predicate Lasting(previous: set<string>, o: OutgoingMessage) {
    o.pluginActionId in previous || !IsEphemeral(o.options)
  }

  function Latest(previous: set<string>, outs: seq<OutgoingMessage>): map<string, string> {
    if outs == [] then map[]
    else
      var latest, o := Latest(previous, outs[..|outs| - 1]), outs[|outs| - 1];
      if Lasting(previous, o) then latest[o.pluginActionId := o.text] else latest
  }

  lemma {:induction false} LatestIff(previous: set<string>, outs: seq<OutgoingMessage>)
    requires DistinctActions(outs)
    ensures forall a :: a in Latest(previous, outs) <==>
      exists i :: 0 <= i < |outs| && outs[i].pluginActionId == a && Lasting(previous, outs[i])
    ensures forall i | 0 <= i < |outs| && Lasting(previous, outs[i]) ::
      Latest(previous, outs)[outs[i].pluginActionId] == outs[i].text
  {
    if outs != [] {
      LatestIff(previous, outs[..|outs| - 1]);
    }
  }

  /** The lasting answers of the last version. */
  ghost function Expected(bot: Bot, versions: seq<Turn>): map<string, string>
    requires forall v <- versions :: v.Handled?
    decreases |versions|, 0
  {
    if versions == [] then map[]
    else
      var before, last := versions[..|versions| - 1], versions[|versions| - 1];
      Latest(if Follows(bot, before) then Expected(bot, before).Keys else {}, Routed(bot, last.e))
  }

  /** The bot keeps track: no version has lasting answers after one that has none. */
  ghost predicate Follows(bot: Bot, versions: seq<Turn>)
    requires forall v <- versions :: v.Handled?
    decreases |versions|, 1
  {
    |versions| > 1 ==>
      var before := versions[..|versions| - 1];
      Follows(bot, before) && (Expected(bot, before) == map[] ==> Expected(bot, versions) == map[])
  }

  /** For each version, whether it has no lasting answer. */
  ghost function Silent(bot: Bot, versions: seq<Turn>): (silent: seq<bool>)
    requires forall v <- versions :: v.Handled?
    ensures |silent| == |versions|
    ensures forall i | 0 <= i < |versions| :: silent[i] <==> Expected(bot, versions[..i + 1]) == map[]
  {
    seq(|versions|, i requires 0 <= i < |versions| => Expected(bot, versions[..i + 1]) == map[])
  }

  /** Once one of them is silent, so are those after it. */
  predicate StaysSilent(silent: seq<bool>) {
    forall i, j | 0 <= i < j < |silent| && silent[i] :: silent[j]
  }

  /** In terms of single versions. */
  lemma {:induction false} FollowsIff(bot: Bot, versions: seq<Turn>)
    requires forall v <- versions :: v.Handled?
    ensures Follows(bot, versions) <==> StaysSilent(Silent(bot, versions))
  {
    var n := |versions|;
    if n > 1 {
      FollowsIff(bot, versions[..n - 1]);
      SilentPrefix(bot, versions);
      StaysSilentStep(Silent(bot, versions));
    }
  }

  lemma SilentPrefix(bot: Bot, versions: seq<Turn>)
    requires (forall v <- versions :: v.Handled?) && |versions| > 1
    ensures var n, silent := |versions|, Silent(bot, versions);
      && Silent(bot, versions[..n - 1]) == silent[..n - 1]
      && (silent[n - 1] <==> Expected(bot, versions) == map[])
      && (silent[n - 2] <==> Expected(bot, versions[..n - 1]) == map[])
  {
    SilentBefore(bot, versions);
    assert versions[..|versions|] == versions;
  }

  lemma SilentBefore(bot: Bot, versions: seq<Turn>)
    requires (forall v <- versions :: v.Handled?) && versions != []
    ensures Silent(bot, versions[..|versions| - 1]) == Silent(bot, versions)[..|versions| - 1]
  {
    var before := versions[..|versions| - 1];
    forall i | 0 <= i < |before|
      ensures Silent(bot, before)[i] == Silent(bot, versions)[i]
    {
      assert before[..i + 1] == versions[..i + 1];
    }
  }

  lemma StaysSilentStep(silent: seq<bool>)
    requires |silent| > 1
    ensures var n := |silent|;
      StaysSilent(silent) <==> StaysSilent(silent[..n - 1]) && (silent[n - 2] ==> silent[n - 1])
  {
    var n := |silent|;
    if StaysSilent(silent[..n - 1]) && (silent[n - 2] ==> silent[n - 1]) {
      forall i, j | 0 <= i < j < n && silent[i]
        ensures silent[j]
      {
        assert silent[..n - 1][i] || i == n - 2;
        assert i < n - 2 ==> silent[..n - 1][n - 2];
        assert j < n - 1 ==> silent[..n - 1][j] || i == n - 2;
      }
    }
  }

  // ---- Reliable drivers ----

  /** Every call succeeds, and exactly the ephemeral answers come back without a usable id. */
  ghost predicate Reliable(outs: seq<OutgoingMessage>, script: Script) {
    && (forall i: nat | i < |outs| ::
          !script.updates(i).UpdateFailed? && (script.sends(i).Trackable() <==> !IsEphemeral(outs[i].options)))
    && (forall id :: script.deleted(id))
  }

  /** The live posts that the maps of a job do not name. */
  function Strangers(p: Progress): set<MsgId> {
    LiveIds(p.posts) - p.job.stale.Values - p.job.kept.Values
  }

  predicate AllLive(p: Progress) {
    p.job.stale.Values + p.job.kept.Values <= LiveIds(p.posts)
  }

  lemma ValuesWithout(entry: Entry, a: string)
    requires a in entry && forall b <- entry, c <- entry :: entry[b] == entry[c] ==> b == c
    ensures (entry - {a}).Values == entry.Values - {entry[a]}
  {
    var rest := entry - {a};
    forall b <- entry | b != a
      ensures entry[b] in rest.Values
    {
      assert rest[b] == entry[b];
    }
  }

  lemma ValuesWith(entry: Entry, a: string, id: MsgId)
    requires a !in entry
    ensures entry[a := id].Values == entry.Values + {id}
  {
    var more := entry[a := id];
    assert more[a] == id;
    forall b <- entry
      ensures entry[b] in more.Values
    {
      assert more[b] == entry[b];
    }
  }

  lemma UpdateStrangers(p: Progress, others: Cache)
    requires Answering(p.job) && HonestOne(p) && JobInv(p, others) && AllLive(p)
    requires Reliable(p.job.outs, p.job.script)
    requires var a := p.job.outs[p.job.at].pluginActionId; a !in p.job.kept && a in p.job.stale
    ensures AllLive(AnswerOne(p)) && Strangers(AnswerOne(p)) == Strangers(p)
  {
    var job := p.job;
    var a := job.outs[job.at].pluginActionId;
    var r, id := job.stale[a], UpdatedId(job.stale[a], job.script.updates(job.at));
    ValuesWithout(job.stale, a);
    ValuesWith(job.kept, a, id);
    assert LiveIds(AnswerOne(p).posts) == LiveIds(p.posts) - {r} + {id};
  }

  lemma SendStrangers(p: Progress)
    requires Answering(p.job) && HonestOne(p) && AllLive(p)
    requires var a := p.job.outs[p.job.at].pluginActionId; a !in p.job.kept && a !in p.job.stale
    ensures AllLive(AnswerOne(p)) && Strangers(AnswerOne(p)) == Strangers(p)
  {
    var job := p.job;
    if job.script.sends(job.at).Trackable() {
      var id := job.script.sends(job.at).id;
      ValuesWith(job.kept, job.outs[job.at].pluginActionId, id);
      assert LiveIds(AnswerOne(p).posts) == LiveIds(p.posts) + {id};
    }
  }

  lemma AnswerOneStrangers(p: Progress, others: Cache)
    requires Answering(p.job) && HonestOne(p) && JobInv(p, others) && AllLive(p)
    requires Reliable(p.job.outs, p.job.script)
    requires p.job.outs[p.job.at].pluginActionId !in p.job.kept
    ensures AllLive(AnswerOne(p)) && Strangers(AnswerOne(p)) == Strangers(p)
  {
    if p.job.outs[p.job.at].pluginActionId in p.job.stale {
      UpdateStrangers(p, others);
    } else {
      SendStrangers(p);
    }
  }

  lemma {:induction false} AnswerAllStrangers(p: Progress, others: Cache)
    requires p.job.at <= |p.job.outs| && HonestAll(p) && JobInv(p, others) && AllLive(p)
    requires Reliable(p.job.outs, p.job.script) && DistinctActions(p.job.outs)
    requires forall i | p.job.at <= i < |p.job.outs| :: p.job.outs[i].pluginActionId !in p.job.kept
    ensures AllLive(AnswerAll(p)) && Strangers(AnswerAll(p)) == Strangers(p)
    decreases |p.job.outs| - p.job.at
  {
    if Answering(p.job) {
      AnswerOneStrangers(p, others);
      AnswerOneKeepsInv(p, others);
      AnswerAllStrangers(AnswerOne(p), others);
    }
  }

  /** The answer given last shows its text, and later turns leave it alone. */
  lemma AnswerOneText(p: Progress, others: Cache)
    requires Answering(p.job) && HonestAll(p) && JobInv(p, others)
    requires Succeeds(p.job.stale, p.job.outs, p.job.script, p.job.at)
    ensures var id := ResultId(p.job.stale, p.job.outs, p.job.script, p.job.at);
      id in AnswerAll(p).posts && AnswerAll(p).posts[id].text == p.job.outs[p.job.at].text
  {
    AnswerOneKeepsInv(p, others);
    var q, a := AnswerOne(p), p.job.outs[p.job.at].pluginActionId;
    assert a in q.job.kept && Apart(q.job.stale, q.job.kept);
    AnswerAllPosts(q, q.job.kept[a]);
  }

  /** Later messages are for other actions, so whether their calls succeed, and with which id, is settled. */
  lemma SucceedsLater(p: Progress, i: nat)
    requires p.job.at < i < |p.job.outs| && DistinctActions(p.job.outs)
    requires Succeeds(p.job.stale, p.job.outs, p.job.script, i)
    ensures var next := AnswerOne(p).job;
      && Succeeds(next.stale, next.outs, next.script, i)
      && ResultId(next.stale, next.outs, next.script, i) == ResultId(p.job.stale, p.job.outs, p.job.script, i)
  {
  }

  /** The response of a message shows the text of that message. */
  lemma {:induction false} AnswerAllText(p: Progress, others: Cache, i: nat)
    requires p.job.at <= i < |p.job.outs| && HonestAll(p) && JobInv(p, others)
    requires DistinctActions(p.job.outs) && Succeeds(p.job.stale, p.job.outs, p.job.script, i)
    ensures var id := ResultId(p.job.stale, p.job.outs, p.job.script, i);
      id in AnswerAll(p).posts && AnswerAll(p).posts[id].text == p.job.outs[i].text
    decreases i - p.job.at
  {
    if i == p.job.at {
      AnswerOneText(p, others);
    } else {
      AnswerOneKeepsInv(p, others);
      SucceedsLater(p, i);
      AnswerAllText(AnswerOne(p), others, i);
    }
  }

  lemma RetractAllLive(p: Progress, others: Cache)
    requires JobInv(p, others) && forall id :: p.job.script.deleted(id)
    ensures var posts' := RetractAll(p.posts, p.job.stale, p.job.script);
      && LiveIds(posts') == LiveIds(p.posts) - p.job.stale.Values
      && (forall id <- p.posts :: id in posts' && posts'[id].text == p.posts[id].text)
  {
    forall id <- p.posts {
      UsesOfSound(p.job.stale, p.posts, id);
    }
  }

  /** A job that has kept nothing yet, with a driver that will not fail. */
  ghost predicate Promising(job: Job, w: World) {
    && job.at == 0 && job.kept == map[] && DistinctActions(job.outs) && Reliable(job.outs, job.script)
    && var p := Progress(job, w.posts);
       HonestAll(p) && JobInv(p, Others(job, w.cache)) && AllLive(p)
  }

  /** What a job shows in the end: its kept responses in place of the stale ones. */
  lemma CompleteShows(job: Job, w: World)
    requires Promising(job, w)
    ensures var kept, w' := AnswerAll(Progress(job, w.posts)).job.kept, Complete(job, w);
      var latest := Latest(job.stale.Keys, job.outs);
      && kept.Keys == latest.Keys
      && (forall a <- kept, b <- kept :: kept[a] == kept[b] ==> a == b)
      && LiveIds(w'.posts) == LiveIds(w.posts) - job.stale.Values + kept.Values
      && kept.Values !! LiveIds(w.posts) - job.stale.Values
      && (forall a <- kept :: kept[a] in w'.posts && w'.posts[kept[a]].text == latest[a])
  {
    var p, others := Progress(job, w.posts), Others(job, w.cache);
    var q := AnswerAll(p);
    AnswerAllFrame(p);
    AnswerAllKeepsInv(p, others);
    AnswerAllStrangers(p, others);
    KeptIsLatest(p, others);
    RetractAllLive(q, others);
    assert q.job.stale.Values !! q.job.kept.Values by {
      assert Apart(q.job.stale, q.job.kept);
    }
    assert LiveIds(q.posts) - q.job.stale.Values == Strangers(p) + q.job.kept.Values;
  }

  lemma KeptIsLatest(p: Progress, others: Cache)
    requires p.job.at == 0 && p.job.kept == map[] && DistinctActions(p.job.outs)
    requires HonestAll(p) && JobInv(p, others) && Reliable(p.job.outs, p.job.script)
    ensures var q, latest := AnswerAll(p), Latest(p.job.stale.Keys, p.job.outs);
      && q.job.kept.Keys == latest.Keys
      && (forall a <- latest :: q.job.kept[a] in q.posts && q.posts[q.job.kept[a]].text == latest[a])
  {
    var job, q := p.job, AnswerAll(p);
    var latest := Latest(job.stale.Keys, job.outs);
    LatestIff(job.stale.Keys, job.outs);
    forall a
      ensures a in q.job.kept <==> a in latest
    {
      AnswerAllKeys(p, a);
      assert forall i | 0 <= i < |job.outs| ::
        Succeeds(job.stale, job.outs, job.script, i) == Lasting(job.stale.Keys, job.outs[i]);
    }
    forall a <- latest
      ensures q.job.kept[a] in q.posts && q.posts[q.job.kept[a]].text == latest[a]
    {
      var i :| 0 <= i < |job.outs| && Lasting(job.stale.Keys, job.outs[i]) && job.outs[i].pluginActionId == a;
      AnswerAllIds(p, i);
      AnswerAllText(p, others, i);
    }
  }

  // ---- Chains ----

  /** A new message, then its edits: each within the age limit and with a timestamp of its own. */
  ghost predicate IsChain(bot: Bot, key: MsgId, versions: seq<Turn>) {
    && (forall v <- versions :: v.Handled? && Reliable(Routed(bot, v.e), v.script))
    && (versions != [] ==> KindOf(versions[0].e) == New && versions[0].e.OwnId() == key)
    && (forall i | 0 < i < |versions| ::
          var e := versions[i].e;
          && KindOf(e) == Changed && WellFormed(e) && e.OriginalId() == key && e.OwnId() != key
          && var age := bot.ageOf(e.timestamp, e.subMessage.value.timestamp);
             age.Some? && age.value <= bot.maxAge)
  }

  /** Posts that were there before the chain stay as they were. */
  ghost predicate Keeps(w0: World, w: World) {
    forall id <- w0.posts :: id in w.posts && w.posts[id] == w0.posts[id]
  }

  ghost predicate HasNewPost(w0: World, w: World) {
    exists id <- LiveIds(w.posts) :: id !in w0.posts
  }

  /** While the bot keeps track its entry is what users see; once lost, responses stay that no entry names. */
  ghost predicate ChainState(bot: Bot, w0: World, w: World, key: MsgId, versions: seq<Turn>)
    requires forall v <- versions :: v.Handled?
  {
    && Inv(w) && Keeps(w0, w)
    && if Follows(bot, versions) then ShowsAs(w0, w, Expected(bot, versions), EntryOf(w.cache, key))
       else key !in w.cache && HasNewPost(w0, w)
  }

  lemma ValuesOfInjective(entry: Entry)
    requires forall a <- entry, b <- entry :: entry[a] == entry[b] ==> a == b
    ensures |entry.Values| == |entry|
    decreases |entry|
  {
    if a :| a in entry {
      var rest := entry - {a};
      ValuesOfInjective(rest);
      ValuesWithout(entry, a);
      assert rest.Keys == entry.Keys - {a} && |rest| == |rest.Keys|;
    }
  }

  /** A live response beside the latest ones is one too many. */
  lemma OneTooMany(w0: World, w: World, texts: map<string, string>, entry: Entry, orphan: MsgId)
    requires entry.Keys == texts.Keys && forall a <- entry, b <- entry :: entry[a] == entry[b] ==> a == b
    requires entry.Values <= LiveIds(w.posts) && entry.Values !! w0.posts.Keys
    requires orphan in LiveIds(w.posts) && orphan !in w0.posts && orphan !in entry.Values
    ensures !Shows(w0, w, texts)
  {
    if other :| ShowsAs(w0, w, texts, other) {
      ValuesOfInjective(entry);
      ValuesOfInjective(other);
      SameSize(entry, other);
      NoRoom(entry.Values, other.Values, orphan);
    }
  }

  lemma NoRoom(s: set<MsgId>, t: set<MsgId>, x: MsgId)
    requires s <= t && x in t && |s| == |t|
    ensures x in s
  {
    if x !in s {
      SubsetSize(s + {x}, t);
    }
  }

  lemma SameSize(entry: Entry, other: Entry)
    requires entry.Keys == other.Keys
    ensures |entry| == |other|
  {
    assert |entry| == |entry.Keys| && |other| == |other.Keys|;
  }

  lemma SubsetSize(s: set<MsgId>, t: set<MsgId>)
    requires s <= t
    ensures |s| <= |t|
  {
    if x :| x in s {
      SubsetSize(s - {x}, t - {x});
    }
  }

  /** Handling leaves alone the posts that its job does not name. */
  lemma CompleteKeeps(job: Job, w0: World, w: World)
    requires Promising(job, w)
    requires Keeps(w0, w) && job.stale.Values !! w0.posts.Keys
    ensures Keeps(w0, Complete(job, w))
    ensures AnswerAll(Progress(job, w.posts)).job.kept.Values !! w0.posts.Keys
  {
    var p, q := Progress(job, w.posts), AnswerAll(Progress(job, w.posts));
    forall id <- w0.posts
      ensures id in Complete(job, w).posts && Complete(job, w).posts[id] == w0.posts[id]
      ensures id !in q.job.kept.Values
    {
      EditFrame(p, Others(job, w.cache), id);
      KeptIsNew(p, id);
    }
  }

  lemma {:induction false} KeptIsNew(p: Progress, id: MsgId)
    requires p.job.at <= |p.job.outs| && HonestAll(p)
    requires id in p.posts && id !in p.job.stale.Values && id !in p.job.kept.Values
    ensures id !in AnswerAll(p).job.kept.Values
    decreases |p.job.outs| - p.job.at
  {
    if Answering(p.job) {
      KeptIsNew(AnswerOne(p), id);
    }
  }

  lemma StartPromising(bot: Bot, w: World, key: MsgId, versions: seq<Turn>)
    requires DistinctNames(bot) && IsChain(bot, key, versions) && versions != [] && Inv(w)
    requires var last := versions[|versions| - 1]; Honest(bot, w, last.e, last.script)
    requires EntryOf(w.cache, key).Values <= LiveIds(w.posts)
    requires |versions| == 1 ==> key !in w.cache
    ensures var last := versions[|versions| - 1];
      var job := Start(bot, w.cache, last.e, last.script);
      && job.Some? && Promising(job.value, w) && job.value.outs == Routed(bot, last.e)
      && job.value.stale == EntryOf(w.cache, key)
      && (job.value.key == key <==> |versions| == 1 || key in w.cache)
      && (job.value.sweeping <==> key in w.cache)
  {
    var last := versions[|versions| - 1];
    RoutedIdentity(bot, last.e);
    StartJobInv(bot, w, last.e, last.script);
  }

  /** A job that starts from what users see ends with the latest answers in its place. */
  lemma ShownAfter(job: Job, w0: World, w: World, texts: map<string, string>)
    requires Promising(job, w) && Keeps(w0, w) && ShowsAs(w0, w, texts, job.stale)
    ensures Keeps(w0, Complete(job, w))
    ensures ShowsAs(w0, Complete(job, w), Latest(texts.Keys, job.outs), AnswerAll(Progress(job, w.posts)).job.kept)
  {
    CompleteShows(job, w);
    CompleteKeeps(job, w0, w);
    assert LiveIds(w0.posts) <= w0.posts.Keys;
  }

  /** The kept responses are stored under the key of the job. */
  lemma StoredUnder(job: Job, w: World, key: MsgId)
    requires job.at <= |job.outs| && (key in w.cache <==> job.sweeping) && (job.sweeping ==> job.key == key)
    ensures var kept := AnswerAll(Progress(job, w.posts)).job.kept;
      EntryOf(Complete(job, w).cache, key) == if job.key == key then kept else map[]
    ensures job.key != key ==> key !in Complete(job, w).cache
  {
    AnswerAllFrame(Progress(job, w.posts));
  }

  lemma ShownIsNew(w0: World, w: World, texts: map<string, string>, entry: Entry)
    requires ShowsAs(w0, w, texts, entry) && entry != map[]
    ensures HasNewPost(w0, w)
  {
    var a :| a in entry;
    assert entry[a] in entry.Values;
  }

  /** What is stored is what users see, unless it is under another key. */
  lemma ShownStep(job: Job, w0: World, w: World, key: MsgId, texts: map<string, string>)
    requires Promising(job, w) && Keeps(w0, w) && ShowsAs(w0, w, texts, job.stale)
    requires job.stale == EntryOf(w.cache, key) && (key in w.cache <==> job.sweeping)
    requires job.sweeping ==> job.key == key
    ensures var w', latest := Complete(job, w), Latest(texts.Keys, job.outs);
      && Keeps(w0, w') && Shows(w0, w', latest)
      && if job.key == key || latest == map[] then ShowsAs(w0, w', latest, EntryOf(w'.cache, key))
         else key !in w'.cache && HasNewPost(w0, w')
  {
    var latest, kept := Latest(texts.Keys, job.outs), AnswerAll(Progress(job, w.posts)).job.kept;
    ShownAfter(job, w0, w, texts);
    StoredUnder(job, w, key);
    assert kept == map[] <==> latest == map[] by {
      assert kept.Keys == latest.Keys;
    }
    if kept != map[] {
      ShownIsNew(w0, Complete(job, w), latest, kept);
    }
  }

  /** A response that no entry names stays, and what shows is then more than the latest answers. */
  lemma OrphanStep(job: Job, w0: World, w: World, orphan: MsgId)
    requires Promising(job, w) && Keeps(w0, w) && job.stale == map[]
    requires orphan in LiveIds(w.posts) && orphan !in w0.posts
    ensures Keeps(w0, Complete(job, w)) && orphan in LiveIds(Complete(job, w).posts)
    ensures !Shows(w0, Complete(job, w), Latest({}, job.outs))
  {
    CompleteShows(job, w);
    CompleteKeeps(job, w0, w);
    assert job.stale.Keys == {};
    OneTooMany(w0, Complete(job, w), Latest({}, job.outs), AnswerAll(Progress(job, w.posts)).job.kept, orphan);
  }

  /** The bot keeps track if it finds the entry it looks up, or if there is nothing to track. */
  lemma KeepsTrack(bot: Bot, w0: World, w: World, key: MsgId, versions: seq<Turn>)
    requires (forall v <- versions :: v.Handled?) && versions != [] && Inv(w)
    requires var before := versions[..|versions| - 1];
      Follows(bot, before) && ShowsAs(w0, w, Expected(bot, before), EntryOf(w.cache, key))
    ensures var expected := Expected(bot, versions);
      && expected == Latest(Expected(bot, versions[..|versions| - 1]).Keys, Routed(bot, versions[|versions| - 1].e))
      && (Follows(bot, versions) <==> |versions| == 1 || key in w.cache || expected == map[])
  {
    assert EntryOf(w.cache, key) == map[] <==> key !in w.cache;
    assert EntryOf(w.cache, key).Keys == Expected(bot, versions[..|versions| - 1]).Keys;
  }

  /** The bot kept track so far: the latest answers show. */
  lemma TrackedStep(bot: Bot, w0: World, w: World, key: MsgId, versions: seq<Turn>)
    requires DistinctNames(bot) && IsChain(bot, key, versions) && versions != [] && Inv(w) && Keeps(w0, w)
    requires var last := versions[|versions| - 1]; Honest(bot, w, last.e, last.script)
    requires var before := versions[..|versions| - 1];
      Follows(bot, before) && ShowsAs(w0, w, Expected(bot, before), EntryOf(w.cache, key))
    requires |versions| == 1 ==> key !in w.cache
    ensures var last := versions[|versions| - 1];
      var w' := Handle(bot, w, last.e, last.script);
      ChainState(bot, w0, w', key, versions) && Shows(w0, w', Expected(bot, versions))
  {
    var before, last := versions[..|versions| - 1], versions[|versions| - 1];
    StartPromising(bot, w, key, versions);
    HandleKeepsInv(bot, w, last.e, last.script);
    var job := Start(bot, w.cache, last.e, last.script).value;
    ShownStep(job, w0, w, key, Expected(bot, before));
    KeepsTrack(bot, w0, w, key, versions);
  }

  /** The bot lost track: a response stays that the latest answers do not account for. */
  lemma LostStep(bot: Bot, w0: World, w: World, key: MsgId, versions: seq<Turn>, orphan: MsgId)
    requires DistinctNames(bot) && IsChain(bot, key, versions) && |versions| > 1 && Inv(w) && Keeps(w0, w)
    requires var last := versions[|versions| - 1]; Honest(bot, w, last.e, last.script)
    requires !Follows(bot, versions[..|versions| - 1])
    requires key !in w.cache && orphan in LiveIds(w.posts) && orphan !in w0.posts
    ensures var last := versions[|versions| - 1];
      var w' := Handle(bot, w, last.e, last.script);
      ChainState(bot, w0, w', key, versions) && !Shows(w0, w', Expected(bot, versions))
  {
    var last := versions[|versions| - 1];
    StartPromising(bot, w, key, versions);
    var job := Start(bot, w.cache, last.e, last.script).value;
    HandleKeepsInv(bot, w, last.e, last.script);
    AnswerAllFrame(Progress(job, w.posts));
    OrphanStep(job, w0, w, orphan);
  }

  lemma {:induction false} ChainAfter(bot: Bot, w0: World, key: MsgId, versions: seq<Turn>)
    requires DistinctNames(bot) && Inv(w0) && key !in w0.cache
    requires IsChain(bot, key, versions) && HonestRun(bot, w0, versions)
    ensures ChainState(bot, w0, After(bot, w0, versions), key, versions)
    ensures versions != [] ==> (Shows(w0, After(bot, w0, versions), Expected(bot, versions))
      <==> Follows(bot, versions[..|versions| - 1]))
  {
    if versions != [] {
      var before := versions[..|versions| - 1];
      ChainAfter(bot, w0, key, before);
      var w := After(bot, w0, before);
      if Follows(bot, before) {
        TrackedStep(bot, w0, w, key, versions);
      } else {
        var orphan :| orphan in LiveIds(w.posts) && orphan !in w0.posts;
        LostStep(bot, w0, w, key, versions, orphan);
      }
    }
  }

  /**
   After a message and its edits users see exactly the answers to the latest text, one per action, if and only if
   no version before the latest has lasting answers after a version that had none; and the deletion of the message
   then leaves none of them if and only if that holds of all versions.
   */
  lemma ChainAgrees(bot: Bot, w0: World, key: MsgId, versions: seq<Turn>, deletion: MessageEvent, script: Script)
    requires DistinctNames(bot) && Inv(w0) && key !in w0.cache && versions != []
    requires IsChain(bot, key, versions) && HonestRun(bot, w0, versions)
    requires KindOf(deletion) == Deleted && deletion.DeletedId() == key && Reliable([], script)
    ensures var n, w := |versions|, After(bot, w0, versions);
      && (Shows(w0, w, Expected(bot, versions)) <==> StaysSilent(Silent(bot, versions[..n - 1])))
      && (LiveIds(Handle(bot, w, deletion, script).posts) == LiveIds(w0.posts) <==> StaysSilent(Silent(bot, versions)))
  {
    var n, w := |versions|, After(bot, w0, versions);
    ChainAfter(bot, w0, key, versions);
    FollowsIff(bot, versions);
    FollowsIff(bot, versions[..n - 1]);
    if Follows(bot, versions) {
      DeletionLeavesNone(bot, w0, w, key, Expected(bot, versions), deletion, script);
    } else {
      assert Handle(bot, w, deletion, script) == w;
    }
  }

  lemma DeletionLeavesNone(bot: Bot, w0: World, w: World, key: MsgId, texts: map<string, string>,
                           deletion: MessageEvent, script: Script)
    requires Inv(w) && ShowsAs(w0, w, texts, EntryOf(w.cache, key))
    requires KindOf(deletion) == Deleted && deletion.DeletedId() == key && Reliable([], script)
    ensures LiveIds(Handle(bot, w, deletion, script).posts) == LiveIds(w0.posts)
  {
    var job := Start(bot, w.cache, deletion, script);
    if job.Some? {
      StartJobInv(bot, w, deletion, script);
      CompleteShows(job.value, w);
    }
  }
}
