/**
 A message, its edits and its deletion in the middle of everything else: when does a run that handles them all leave
 an answer to the message for good?
 */
module Deletions {
  import opened Text
  import opened Messages
  import opened Actions
  import opened Reconcile
  import opened Dispatch
  import opened Overtaking
  import opened Confluence
  import opened EditChain
  import opened Agreement
  import opened Bystanders

  /** The message itself, or an edit of it within the age limit. */
  predicate IsVersion(plan: Plan, i: nat, key: MsgId)
    requires i < |plan.events|
  {
    var e := plan.events[i];
    if KindOf(e).New? then e.OwnId() == key
    else
      && KindOf(e).Changed? && WellFormed(e) && e.OriginalId() == key
      && var age := plan.bot.ageOf(e.timestamp, e.subMessage.value.timestamp);
         age.Some? && age.value <= plan.bot.maxAge
  }

  /** The deletion comes last, after the last version. */
  function Deletion(order: seq<nat>): nat
    requires |order| > 1
  {
    order[|order| - 1]
  }

  function LastVersion(order: seq<nat>): nat
    requires |order| > 1
  {
    order[|order| - 2]
  }

  /**
   Some events of one queue, the last of them a version of a message, and later its deletion. Their messages and
   responses are no others'.
   */
  ghost predicate IsDeletion(plan: Plan, order: seq<nat>) {
    && |order| > 1 && Increasing(order) && AreEvents(plan, order) && IsPrivate(plan, Members(order))
    && (forall n | 0 <= n < |order| - 1 :: plan.PartitionOf(order[n]) == plan.PartitionOf(LastVersion(order)))
    && KindOf(plan.events[Deletion(order)]) == Deleted
    && IsVersion(plan, LastVersion(order), plan.events[Deletion(order)].DeletedId())
  }

  /** The shortest case: a message without edits. */
  lemma PairIsDeletion(plan: Plan, j: nat, k: nat)
    requires j < k < |plan.events| && IsPrivate(plan, Members([j, k]))
    requires KindOf(plan.events[j]) == New && KindOf(plan.events[k]) == Deleted
    requires plan.events[k].DeletedId() == plan.events[j].OwnId()
    ensures IsDeletion(plan, [j, k])
  {
  }

  /** What users see of the responses to these events. */
  ghost function Seen(plan: Plan, order: seq<nat>, posts: Posts): set<MsgId> {
    LiveIds(posts) * Part(plan, Members(order), true).ids
  }

  /** The driver accepts the answer that would be sent as number i. */
  ghost predicate IsAnswered(plan: Plan, j: nat, i: nat)
    requires j < |plan.events|
  {
    i < |Routed(plan.bot, plan.events[j])| && plan.scripts(j).sends(i).Trackable()
  }

  // ---- If the deletion comes last ----

  lemma GroupInOrder(plan: Plan, order: seq<nat>, s: State)
    requires IsDeletion(plan, order) && Reachable(plan, s)
    requires HasBegun(plan, s, Deletion(order)) ==> !CanOvertake(plan, LastVersion(order), Deletion(order))
    ensures InOrder(plan, order, s)
  {
    if HasBegun(plan, s, Deletion(order)) && !IsHandled(plan, s, LastVersion(order)) {
      OvertakenOnlyIf(plan, s, LastVersion(order), Deletion(order));
    }
    forall i, j | 0 <= i < j < |order| && HasBegun(plan, s, order[j])
      ensures IsHandled(plan, s, order[i])
    {
      var later := if j == |order| - 1 then LastVersion(order) else order[j];
      assert HasBegun(plan, s, later);
      if order[i] != later && !IsHandled(plan, s, order[i]) {
        OvertakenOnlyIf(plan, s, order[i], later);
      }
    }
  }

  /** Unless the deletion begins early, the group is handled one by one. */
  lemma {:induction false} ExecTracked(plan: Plan, order: seq<nat>, n: nat, s: State, steps: seq<Step>)
    returns (n': nat)
    requires IsDeletion(plan, order) && IsTracked(plan, order, n, s)
    requires Reachable(plan, s) && Exec(plan, s, steps).Some?
    requires HasBegun(plan, Exec(plan, s, steps).value, Deletion(order)) ==>
      !CanOvertake(plan, LastVersion(order), Deletion(order))
    ensures IsTracked(plan, order, n', Exec(plan, s, steps).value)
    decreases |steps|
  {
    n' := n;
    if steps != [] {
      var s' := Next(plan, s, steps[0]);
      ReachMore(plan, s, steps[0]);
      NextKeepsInv(plan, s, steps[0]);
      if HasBegun(plan, s', Deletion(order)) {
        ExecStatusStays(plan, s', steps[1..], Deletion(order));
      }
      GroupInOrder(plan, order, s');
      n' := NextTracked(plan, order, n, s, steps[0]);
      n' := ExecTracked(plan, order, n', s', steps[1..]);
    }
  }

  lemma TrackedAt(plan: Plan, order: seq<nat>, s: State) returns (n: nat)
    requires IsDeletion(plan, order) && Reachable(plan, s)
    requires HasBegun(plan, s, Deletion(order)) ==> !CanOvertake(plan, LastVersion(order), Deletion(order))
    ensures IsTracked(plan, order, n, s)
  {
    var steps :| Exec(plan, Init(plan), steps) == Some(s);
    InitTracked(plan, order);
    InitRoles(plan, {});
    n := ExecTracked(plan, order, 0, Init(plan), steps);
  }

  lemma AllHandled(plan: Plan, s: State, i: nat)
    requires Reachable(plan, s) && s.main.Returned? && i < |plan.events|
    ensures IsHandled(plan, s, i)
  {
    EachHandledOnce(plan, s);
  }

  /** Then users see what they see if nothing else happens and the group is handled event by event. */
  lemma SeenInOrder(plan: Plan, order: seq<nat>, s: State)
    requires IsDeletion(plan, order) && !CanOvertake(plan, LastVersion(order), Deletion(order))
    requires Reachable(plan, s) && s.main.Returned?
    ensures Seen(plan, order, s.world.posts) == LiveIds(Fold(plan, order).posts)
  {
    var z := Part(plan, Members(order), true);
    var n := TrackedAt(plan, order, s);
    AllHandled(plan, s, Deletion(order));
    assert n == |order|;
    assert order[..n] == order;
    forall i <- order
      ensures i < |plan.events| && Covers(z, plan.bot, plan.events[i], plan.scripts(i))
    {
      PartCovers(plan, Members(order), i);
    }
    FoldWithin(plan, order, z);
    SameLive(z.ids, s.world.posts, Fold(plan, order).posts);
  }

  // ---- If the deletion overtakes the last version ----

  lemma DeletionForgets(bot: Bot, w: World, e: MessageEvent, script: Script)
    requires KindOf(e) == Deleted
    ensures e.DeletedId() !in Handle(bot, w, e, script).cache
  {
  }

  /** Answer i is yet to be sent anew, or is there to stay. */
  ghost predicate Lasts(plan: Plan, last: nat, i: nat, status: Status, w: World)
    requires last < |plan.events|
  {
    var reply := plan.scripts(last).sends(i);
    match status
    case NotBegun => KindOf(plan.events[last]).New? || plan.events[last].OriginalId() !in w.cache
    case Underway(job) => !job.sweeping && (job.at > i ==> reply.Posted? && reply.id in LiveIds(w.posts))
    case Done => reply.Posted? && reply.id in LiveIds(w.posts)
  }

  /** Of the group only the last version is not handled yet, so nothing withdraws its answer. */
  ghost predicate Stays(plan: Plan, order: seq<nat>, i: nat, s: State) {
    && IsDeletion(plan, order) && Orderly(plan, s) && Roles(plan, Members(order), s)
    && IsHandled(plan, s, Deletion(order)) && (forall n | 0 <= n < |order| - 2 :: IsHandled(plan, s, order[n]))
    && IsAnswered(plan, LastVersion(order), i)
    && Lasts(plan, LastVersion(order), i, StatusOf(plan, s, LastVersion(order)), s.world)
  }

  lemma LastsElsewhere(plan: Plan, group: set<nat>, last: nat, i: nat, status: Status, w: World, w': World)
    requires last < |plan.events| && last in group
    requires KindOf(plan.events[last]).New? || KindOf(plan.events[last]).Changed?
    requires IsAnswered(plan, last, i) && Agree(Part(plan, group, true), w, w')
    requires Lasts(plan, last, i, status, w)
    ensures Lasts(plan, last, i, status, w')
  {
    var z, id := Part(plan, group, true), plan.scripts(last).sends(i).id;
    PartCovers(plan, group, last);
    assert id in IdsAt(plan.scripts(last), i) && id in z.ids;
  }

  lemma SentLasts(posts: Posts, script: Script, at: nat, text: string, i: nat)
    requires script.sends(i).Trackable() && (at > i ==> script.sends(i).id in LiveIds(posts))
    ensures at + 1 > i ==> script.sends(i).id in LiveIds(Sent(posts, script.sends(at), text))
  {
  }

  /** A step of the handler of the last version. */
  lemma LastStep(plan: Plan, order: seq<nat>, i: nat, s: State, step: Step)
    requires Stays(plan, order, i, s)
    requires Enabled(plan, s, step) && IsWorkerStep(step) && s.workers[step.p].k == LastVersion(order)
    ensures var s' := Next(plan, s, step);
      Lasts(plan, LastVersion(order), i, StatusOf(plan, s', LastVersion(order)), s'.world)
  {
    OwnStatus(plan, s, step);
    if !step.Begin? {
      var job := s.workers[step.p].job;
      assert HasRole(plan, Members(order), s.workers[step.p]);
      assert job.stale == map[];
      if step.AnswerNext? {
        SentLasts(s.world.posts, job.script, job.at, job.outs[job.at].text, i);
      }
    }
  }

  lemma OnlyLastLeft(plan: Plan, order: seq<nat>, s: State, i: nat)
    requires |order| > 1 && AreEvents(plan, order) && IsHandled(plan, s, Deletion(order))
    requires forall n | 0 <= n < |order| - 2 :: IsHandled(plan, s, order[n])
    requires i in Members(order) && i < |plan.events| && !IsHandled(plan, s, i)
    ensures i == LastVersion(order)
  {
    var n :| 0 <= n < |order| && order[n] == i;
  }

  lemma NextStays(plan: Plan, order: seq<nat>, i: nat, s: State, step: Step)
    requires Stays(plan, order, i, s) && Enabled(plan, s, step)
    ensures Stays(plan, order, i, Next(plan, s, step))
  {
    var s', group, last := Next(plan, s, step), Members(order), LastVersion(order);
    NextKeepsInv(plan, s, step);
    NextKeepsRoles(plan, group, s, step);
    StatusStays(plan, s, step, Deletion(order));
    forall n | 0 <= n < |order| - 2 {
      StatusStays(plan, s, step, order[n]);
    }
    StepView(plan, s, step);
    if !IsWorkerStep(step) {
      SameViewStatus(plan, s, s', last);
    } else if s.workers[step.p].k in group {
      HeldNotHandled(plan, s, step.p);
      OnlyLastLeft(plan, order, s, s.workers[step.p].k);
      LastStep(plan, order, i, s, step);
    } else {
      assert last in group;
      OtherStatus(plan, s, step, last);
      HandlerStep(plan, group, s, step);
      LastsElsewhere(plan, group, last, i, StatusOf(plan, s, last), s.world, s'.world);
    }
  }

  lemma {:induction false} ExecStays(plan: Plan, order: seq<nat>, i: nat, s: State, steps: seq<Step>)
    requires Stays(plan, order, i, s) && Reachable(plan, s) && Exec(plan, s, steps).Some?
    ensures Stays(plan, order, i, Exec(plan, s, steps).value) && Reachable(plan, Exec(plan, s, steps).value)
    decreases |steps|
  {
    if steps != [] {
      ReachMore(plan, s, steps[0]);
      NextStays(plan, order, i, s, steps[0]);
      ExecStays(plan, order, i, Next(plan, s, steps[0]), steps[1..]);
    }
  }

  /** The deletion is handled while the last version waits for its turn. */
  lemma Outrun(plan: Plan, order: seq<nat>, i: nat) returns (s: State)
    requires IsDeletion(plan, order) && IsAnswered(plan, LastVersion(order), i)
    requires CanOvertake(plan, LastVersion(order), Deletion(order))
    ensures Reachable(plan, s) && Stays(plan, order, i, s) && !s.main.Aborted?
  {
    var last := LastVersion(order);
    var before := Dwell(plan, last, Deletion(order));
    s := HandleNext(plan, before, plan.PartitionOf(last));
    DeletionForgets(plan.bot, before.world, plan.events[Deletion(order)], plan.scripts(Deletion(order)));
    ReachableRoles(plan, Members(order), s);
    forall n | 0 <= n < |order| - 2
      ensures IsHandled(plan, s, order[n])
    {
      EarlierHandled(plan, s, order[n], last);
    }
  }

  lemma AnswerIsLeft(plan: Plan, order: seq<nat>, i: nat) returns (s: State)
    requires IsDeletion(plan, order) && IsAnswered(plan, LastVersion(order), i)
    requires CanOvertake(plan, LastVersion(order), Deletion(order))
    ensures Reachable(plan, s) && s.main.Returned?
    ensures plan.scripts(LastVersion(order)).sends(i).id in Seen(plan, order, s.world.posts)
  {
    var last := LastVersion(order);
    var before := Outrun(plan, order, i);
    var more := CanReturn(plan, before);
    ExecStays(plan, order, i, before, more);
    s := Exec(plan, before, more).value;
    AllHandled(plan, s, last);
    PartCovers(plan, Members(order), last);
    assert plan.scripts(last).sends(i).id in IdsAt(plan.scripts(last), i);
  }

  /** Some run that handles every event leaves a response to them in the channel. */
  ghost predicate CanLeaveAnswer(plan: Plan, order: seq<nat>) {
    exists s :: Reachable(plan, s) && s.main.Returned? && Seen(plan, order, s.world.posts) != {}
  }

  /**
   Some run leaves a response to a deleted message for good if and only if the deletion can overtake the last version,
   which is answered, or a response is left even when the events are handled one by one.
   */
  lemma AnswerLeftIff(plan: Plan, order: seq<nat>, i: nat)
    requires IsDeletion(plan, order) && IsAnswered(plan, LastVersion(order), i)
    ensures CanLeaveAnswer(plan, order)
      <==> CanOvertake(plan, LastVersion(order), Deletion(order)) || LiveIds(Fold(plan, order).posts) != {}
  {
    if CanOvertake(plan, LastVersion(order), Deletion(order)) {
      var s := AnswerIsLeft(plan, order, i);
    } else {
      forall s | Reachable(plan, s) && s.main.Returned?
        ensures Seen(plan, order, s.world.posts) == LiveIds(Fold(plan, order).posts)
      {
        SeenInOrder(plan, order, s);
      }
      InitRoles(plan, {});
      var steps := CanReturn(plan, Init(plan));
    }
  }

  // ---- When the group, handled one by one, leaves nothing ----

  /** A job that only sends keeps the id of every response that shows. */
  lemma {:induction false} SentAreKept(p: Progress)
    requires p.job.at <= |p.job.outs| && p.job.stale == map[] && DistinctActions(p.job.outs)
    requires forall i | p.job.at <= i < |p.job.outs| :: p.job.outs[i].pluginActionId !in p.job.kept
    requires LiveIds(p.posts) <= p.job.kept.Values
    ensures AnswerAll(p).job.stale == map[] && LiveIds(AnswerAll(p).posts) <= AnswerAll(p).job.kept.Values
    decreases |p.job.outs| - p.job.at
  {
    if Answering(p.job) {
      if p.job.script.sends(p.job.at).Trackable() {
        ValuesWith(p.job.kept, p.job.outs[p.job.at].pluginActionId, p.job.script.sends(p.job.at).id);
      }
      SentAreKept(AnswerOne(p));
    }
  }

  lemma UsedWhenNamed(stale: Entry, id: MsgId)
    requires id in stale.Values
    ensures Uses(stale, id) > 0
  {
    var a :| a in stale && stale[a] == id;
    var users := set b | b in stale && stale[b] == id;
    assert a in users;
  }

  /** A deletion that works withdraws what the entry names. */
  lemma DeletionWithdraws(bot: Bot, w: World, e: MessageEvent, script: Script)
    requires KindOf(e) == Deleted && Reliable([], script)
    requires LiveIds(w.posts) <= Runs.EntryOf(w.cache, e.DeletedId()).Values
    ensures LiveIds(Handle(bot, w, e, script).posts) == {}
  {
    var stale := Runs.EntryOf(w.cache, e.DeletedId());
    forall id <- LiveIds(w.posts)
      ensures Uses(stale, id) > 0
    {
      UsedWhenNamed(stale, id);
    }
  }

  lemma MessageThenDeletion(plan: Plan, j: nat, k: nat)
    requires j < |plan.events| && k < |plan.events| && DistinctNames(plan.bot) && Reliable([], plan.scripts(k))
    requires KindOf(plan.events[j]) == New && KindOf(plan.events[k]) == Deleted
    requires plan.events[k].DeletedId() == plan.events[j].OwnId()
    ensures LiveIds(Fold(plan, [j, k]).posts) == {}
  {
    var w0, e := World(map[], map[]), plan.events[j];
    var job := Job(e.OwnId(), Routed(plan.bot, e), plan.scripts(j), 0, map[], map[], false);
    RoutedIdentity(plan.bot, e);
    SentAreKept(Progress(job, w0.posts));
    Runs.AnswerAllFrame(Progress(job, w0.posts));
    RetractNone(AnswerAll(Progress(job, w0.posts)).posts, job.script);
    DeletionWithdraws(plan.bot, Complete(job, w0), plan.events[k], plan.scripts(k));
    assert [j] == [] + [j] && [j, k] == [j] + [k];
    FoldLast(plan, [], j);
    FoldLast(plan, [j], k);
  }

  /** For a message without edits only the overtaking matters. */
  lemma MessageLeftIff(plan: Plan, j: nat, k: nat, i: nat)
    requires IsDeletion(plan, [j, k]) && IsAnswered(plan, j, i) && KindOf(plan.events[j]) == New
    requires DistinctNames(plan.bot) && Reliable([], plan.scripts(k))
    ensures CanLeaveAnswer(plan, [j, k]) <==> CanOvertake(plan, j, k)
  {
    AnswerLeftIff(plan, [j, k], i);
    MessageThenDeletion(plan, j, k);
  }

  lemma VersionsThenDeletion(plan: Plan, ks: seq<nat>, k: nat)
    requires k < |plan.events| && KindOf(plan.events[k]) == Deleted && Reliable([], plan.scripts(k))
    requires DistinctNames(plan.bot) && AreVersions(plan, plan.events[k].DeletedId(), VersionsAt(plan, ks))
    ensures LiveIds(Fold(plan, ks + [k]).posts) == {} <==> StaysSilent(Silent(plan.bot, VersionsAt(plan, ks)))
  {
    var e, w0 := plan.events[k], World(map[], map[]);
    FoldIsRun(plan, ks);
    ChainAgrees(plan.bot, w0, e.DeletedId(), VersionsAt(plan, ks), e, plan.scripts(k));
    assert LiveIds(w0.posts) == {};
    FoldLast(plan, ks, k);
  }

  /**
   If a deletion cannot overtake the last version, then after every complete run the responses are gone if and only if
   no version has lasting answers after one that has none.
   */
  lemma DeletionAgreesAmongOthers(plan: Plan, versions: seq<nat>, k: nat, s: State)
    requires versions != [] && IsDeletion(plan, versions + [k]) && !CanOvertake(plan, versions[|versions| - 1], k)
    requires DistinctNames(plan.bot) && Reliable([], plan.scripts(k))
    requires AreVersions(plan, plan.events[k].DeletedId(), VersionsAt(plan, versions))
    requires Reachable(plan, s) && s.main.Returned?
    ensures Seen(plan, versions + [k], s.world.posts) == {}
      <==> StaysSilent(Silent(plan.bot, VersionsAt(plan, versions)))
  {
    SeenInOrder(plan, versions + [k], s);
    VersionsThenDeletion(plan, versions, k);
  }

  /** For one with edits, and a driver that works, it also matters whether the bot keeps track of all versions. */
  lemma EditedLeftIff(plan: Plan, versions: seq<nat>, k: nat, i: nat)
    requires versions != [] && IsDeletion(plan, versions + [k])
    requires IsAnswered(plan, LastVersion(versions + [k]), i)
    requires DistinctNames(plan.bot) && Reliable([], plan.scripts(k))
    requires AreVersions(plan, plan.events[k].DeletedId(), VersionsAt(plan, versions))
    ensures CanLeaveAnswer(plan, versions + [k]) <==>
      CanOvertake(plan, versions[|versions| - 1], k) || !StaysSilent(Silent(plan.bot, VersionsAt(plan, versions)))
  {
    AnswerLeftIff(plan, versions + [k], i);
    VersionsThenDeletion(plan, versions, k);
  }
}
