/** A driver that hands out new ids to the sequential bot does so to the workers, if their events are aligned. */
module Honesty {
  import opened Text
  import opened Messages
  import opened Actions
  import opened Reconcile
  import opened Dispatch
  import opened Overtaking
  import opened Confluence
  import opened Bystanders
  import opened Responses

  /** The first n events as a run without evictions. */
  function StepsOf(plan: Plan, n: nat): seq<Runs.Turn>
    requires n <= |plan.events|
  {
    if n == 0 then [] else StepsOf(plan, n - 1) + [Runs.Handled(plan.events[n - 1], plan.scripts(n - 1))]
  }

  lemma {:induction false} SequentialIsRun(plan: Plan, n: nat)
    requires n <= |plan.events|
    ensures Sequential(plan, n) == Runs.After(plan.bot, World(map[], map[]), StepsOf(plan, n))
  {
    if n > 0 {
      var before := StepsOf(plan, n - 1);
      SequentialIsRun(plan, n - 1);
      assert StepsOf(plan, n)[..|before|] == before;
    }
  }

  lemma {:induction false} HonestAllAgree(p: Progress, p': Progress, z: Zone)
    requires p.job.at <= |p.job.outs| && p'.job == p.job && Local(p.job, z) && SamePosts(z.ids, p.posts, p'.posts)
    ensures Runs.HonestAll(p) == Runs.HonestAll(p')
    decreases |p.job.outs| - p.job.at
  {
    if Answering(p.job) {
      HonestOneAgrees(p, p', z);
      AnswerOneLocal(p, z);
      AnswerOneAgree(p, p', z);
      HonestAllAgree(AnswerOne(p), AnswerOne(p'), z);
    }
  }

  lemma HonestOneAgrees(p: Progress, p': Progress, z: Zone)
    requires Answering(p.job) && p'.job == p.job && Local(p.job, z) && SamePosts(z.ids, p.posts, p'.posts)
    ensures Runs.HonestOne(p) == Runs.HonestOne(p')
  {
    assert IdsAt(p.job.script, p.job.at) <= z.ids;
  }

  lemma HonestAgrees(bot: Bot, w: World, w': World, e: MessageEvent, script: Script, z: Zone)
    requires Covers(z, bot, e, script) && Closed(z, w) && Agree(z, w, w')
    ensures Runs.Honest(bot, w, e, script) == Runs.Honest(bot, w', e, script)
  {
    HandleAgree(bot, w, w', e, script, z);
    StartLocal(bot, w, e, script, z);
    var job := Start(bot, w.cache, e, script);
    if job.Some? {
      HonestAllAgree(Progress(job.value, w.posts), Progress(job.value, w'.posts), z);
    }
  }

  /** The driver hands out new ids in the sequential run. */
  ghost predicate IsHonest(plan: Plan) {
    Runs.HonestRun(plan.bot, World(map[], map[]), StepsOf(plan, |plan.events|))
  }

  lemma {:induction false} HonestAt(plan: Plan, k: nat, n: nat)
    requires k < n <= |plan.events| && Runs.HonestRun(plan.bot, World(map[], map[]), StepsOf(plan, n))
    ensures Runs.Honest(plan.bot, Sequential(plan, k), plan.events[k], plan.scripts(k))
  {
    assert StepsOf(plan, n)[..|StepsOf(plan, n)| - 1] == StepsOf(plan, n - 1);
    if k == n - 1 {
      SequentialIsRun(plan, k);
    } else {
      HonestAt(plan, k, n - 1);
    }
  }

  /** So it does in the run of each queue. */
  lemma HonestInQueue(plan: Plan, k: nat)
    requires plan.Valid() && Aligned(plan) && IsHonest(plan) && k < |plan.events|
    ensures Runs.Honest(plan.bot, Fold(plan, Arrived(plan, k, plan.PartitionOf(k))), plan.events[k], plan.scripts(k))
  {
    var p := plan.PartitionOf(k);
    HonestAt(plan, k, |plan.events|);
    SequentialByQueue(plan, k, p);
    SequentialClosed(plan, k);
    ZoneCovers(plan, k);
    HonestAgrees(plan.bot, Sequential(plan, k), Fold(plan, Arrived(plan, k, p)), plan.events[k], plan.scripts(k),
                 ZoneOf(plan, p));
  }

  /** What a worker holds follows what it has handled. */
  lemma HandledBefore(plan: Plan, s: State, p: nat)
    requires Orderly(plan, s) && p < plan.count && s.workers[p].Taken?
    ensures s.workers[p].k < |plan.events| && plan.PartitionOf(s.workers[p].k) == p
    ensures s.handled[p] == Arrived(plan, s.workers[p].k, p)
  {
    assert Sane(plan, s, p);
    var k, all := s.workers[p].k, Arrived(plan, s.next, p);
    assert k in InHand(s.workers[p]);
    assert all[|s.handled[p]|] == k && s.handled[p] == all[..|s.handled[p]|];
    ArrivedExactly(plan, s.next, p);
    assert k in all;
    ArrivedAt(plan, k, s.next);
    ArrivedPrefix(plan, k, s.next, p);
    ArrivedIncreasing(plan, s.next, p);
    SamePlace(all, |s.handled[p]|, |Arrived(plan, k, p)|);
  }

  lemma SamePlace(ks: seq<nat>, i: nat, j: nat)
    requires Increasing(ks) && i < |ks| && j < |ks| && ks[i] == ks[j]
    ensures i == j
  {
  }

  lemma {:induction false} ArrivedPrefix(plan: Plan, k: nat, n: nat, p: nat)
    requires k <= n <= |plan.events|
    ensures Arrived(plan, k, p) <= Arrived(plan, n, p)
  {
    if k < n {
      ArrivedPrefix(plan, k, n - 1, p);
    }
  }

  /** The step of a worker leaves the zones of the others alone. */
  lemma StepElsewhere(plan: Plan, s: State, step: Step, p: nat)
    requires Aligned(plan) && WorldInv(plan, s) && Enabled(plan, s, step) && IsWorkerStep(step)
    requires p < plan.count && p != step.p
    ensures Agree(ZoneOf(plan, p), s.world, Next(plan, s, step).world)
  {
    var q := step.p;
    HeldNotHandled(plan, s, q);
    ZonesDisjoint(plan, q, p);
    ZoneCovers(plan, s.workers[q].k);
    assert OnTrack(plan, s, q);
    WorkerStepLocal(plan, s, step, ZoneOf(plan, q));
    ElsewhereAgrees(ZoneOf(plan, q), ZoneOf(plan, p), s.world, Next(plan, s, step).world);
  }

  /** The handler in progress gets new ids from here on. */
  ghost predicate HonestAhead(s: State, p: nat)
    requires p < |s.workers| && s.workers[p].Working?
  {
    var job := s.workers[p].job;
    job.at <= |job.outs| && Runs.HonestAll(Progress(job, s.world.posts))
  }

  ghost predicate AllHonest(plan: Plan, s: State) {
    WorldInv(plan, s) && forall p | 0 <= p < plan.count && s.workers[p].Working? :: HonestAhead(s, p)
  }

  lemma BeginHonest(plan: Plan, s: State, p: nat)
    requires Aligned(plan) && IsHonest(plan) && WorldInv(plan, s) && Enabled(plan, s, Begin(p))
    ensures var s' := Next(plan, s, Begin(p)); s'.workers[p].Working? ==> HonestAhead(s', p)
  {
    var k, f := s.workers[p].k, Fold(plan, s.handled[p]);
    HandledBefore(plan, s, p);
    HonestInQueue(plan, k);
    ZoneCovers(plan, k);
    assert OnTrack(plan, s, p);
    HonestAgrees(plan.bot, s.world, f, plan.events[k], plan.scripts(k), ZoneOf(plan, p));
  }

  lemma OwnStepHonest(plan: Plan, s: State, step: Step)
    requires Aligned(plan) && IsHonest(plan) && AllHonest(plan, s) && Enabled(plan, s, step) && IsWorkerStep(step)
    ensures var s' := Next(plan, s, step); s'.workers[step.p].Working? ==> HonestAhead(s', step.p)
  {
    if step.Begin? {
      BeginHonest(plan, s, step.p);
    } else if !step.Store? {
      assert HonestAhead(s, step.p);
    }
  }

  lemma OthersStayHonest(plan: Plan, s: State, s': State, p: nat)
    requires p < |s.workers| && s.workers[p].Working? && HonestAhead(s, p) && OnTrack(plan, s, p)
    requires p < |s'.workers| && s'.workers[p] == s.workers[p] && Agree(ZoneOf(plan, p), s.world, s'.world)
    ensures HonestAhead(s', p)
  {
    var job := s.workers[p].job;
    HonestAllAgree(Progress(job, s.world.posts), Progress(job, s'.world.posts), ZoneOf(plan, p));
  }

  lemma NextHonest(plan: Plan, s: State, step: Step)
    requires Aligned(plan) && IsHonest(plan) && AllHonest(plan, s) && Enabled(plan, s, step)
    ensures AllHonest(plan, Next(plan, s, step))
  {
    var s' := Next(plan, s, step);
    NextKeepsWorldInv(plan, s, step);
    StepView(plan, s, step);
    if IsWorkerStep(step) {
      OwnStepHonest(plan, s, step);
    }
    forall p | 0 <= p < plan.count && s'.workers[p].Working?
      ensures HonestAhead(s', p)
    {
      if !IsWorkerStep(step) || p != step.p {
        assert s'.workers[p] == s.workers[p] && OnTrack(plan, s, p) && HonestAhead(s, p);
        if IsWorkerStep(step) {
          StepElsewhere(plan, s, step, p);
        }
        OthersStayHonest(plan, s, s', p);
      }
    }
  }

  function Acts(steps: seq<Step>): seq<Move> {
    if steps == [] then [] else [Act(steps[0])] + Acts(steps[1..])
  }

  lemma {:induction false} ExecIsRun(plan: Plan, s: State, steps: seq<Step>)
    requires Aligned(plan) && IsHonest(plan) && AllHonest(plan, s) && Exec(plan, s, steps).Some?
    ensures Run(plan, s, Acts(steps)) == Exec(plan, s, steps)
    decreases |steps|
  {
    if steps != [] {
      if steps[0].AnswerNext? {
        assert HonestAhead(s, steps[0].p);
      }
      NextHonest(plan, s, steps[0]);
      ExecIsRun(plan, Next(plan, s, steps[0]), steps[1..]);
      assert Acts(steps)[1..] == Acts(steps[1..]);
    }
  }

  lemma InitHonest(plan: Plan)
    requires plan.Valid() && Aligned(plan)
    ensures AllHonest(plan, Init(plan))
  {
    InitRoles(plan, {});
    ReachableWorldInv(plan, Init(plan));
  }

  lemma AlignedRunIsHonest(plan: Plan, s: State)
    requires Aligned(plan) && IsHonest(plan) && Reachable(plan, s)
    ensures KeysApart(plan) && HonestlyReachable(plan, s)
  {
    var steps :| Exec(plan, Init(plan), steps) == Some(s);
    AlignedKeysApart(plan);
    InitHonest(plan);
    ExecIsRun(plan, Init(plan), steps);
    assert Run(plan, Init(plan), Acts(steps)) == Some(s);
  }

  lemma AlignedKeysApart(plan: Plan)
    requires Aligned(plan)
    ensures KeysApart(plan)
  {
  }

  /** So what every state keeps holds under the condition of confluence too, for a driver honest to that bot. */
  lemma AlignedStateKeepsResponses(plan: Plan, s: State)
    requires Aligned(plan) && IsHonest(plan) && Reachable(plan, s)
    ensures KeepsResponses(s)
  {
    AlignedRunIsHonest(plan, s);
    EveryStateKeepsResponses(plan, s);
  }
}
