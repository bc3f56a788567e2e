/**
 A group of events that shares no message and no response id with any other event: how far each of them has come,
 and what the steps of the others, its bystanders, leave alone.
 */
module Bystanders {
  import opened Text
  import opened Messages
  import opened Actions
  import opened Reconcile
  import opened Dispatch
  import opened Overtaking
  import opened Confluence

  // ---- How far an event has come ----

  datatype Status = NotBegun | Underway(job: Job) | Done

  ghost function StatusOf(plan: Plan, s: State, i: nat): Status
    requires i < |plan.events|
  {
    var p := plan.PartitionOf(i);
    if IsHandled(plan, s, i) then Done
    else if HasBegun(plan, s, i) then Underway(s.workers[p].job)
    else NotBegun
  }

  predicate IsWorkerStep(step: Step) {
    step.Begin? || step.AnswerNext? || step.RetractNext? || step.Store?
  }

  /** No handler begins, ends or makes a call. */
  ghost predicate SameView(s: State, s': State) {
    && s'.world == s.world && s'.handled == s.handled && |s'.workers| == |s.workers|
    && forall p | 0 <= p < |s.workers| ::
         s'.workers[p] == s.workers[p] || (!s.workers[p].Working? && !s'.workers[p].Working?)
  }

  /** A step of the worker of one queue. */
  ghost predicate OnlyWorker(s: State, s': State, p: nat) {
    && p < |s.workers| == |s'.workers| == |s.handled| == |s'.handled|
    && forall q | 0 <= q < |s.workers| && q != p ::
         s'.workers[q] == s.workers[q] && s'.handled[q] == s.handled[q]
  }

  lemma StepView(plan: Plan, s: State, step: Step)
    requires Orderly(plan, s) && Enabled(plan, s, step)
    ensures !IsWorkerStep(step) ==> SameView(s, Next(plan, s, step))
    ensures IsWorkerStep(step) ==> OnlyWorker(s, Next(plan, s, step), step.p)
  {
  }

  /** A worker holds events of its own queue that it has not handled. */
  lemma HeldNotHandled(plan: Plan, s: State, p: nat)
    requires Orderly(plan, s) && p < plan.count && (s.workers[p].Taken? || s.workers[p].Working?)
    ensures var i := s.workers[p].k;
      i < |plan.events| && plan.PartitionOf(i) == p && !IsHandled(plan, s, i)
  {
    assert Sane(plan, s, p);
    var i := s.workers[p].k;
    assert i in InHand(s.workers[p]);
    var all := Arrived(plan, s.next, p);
    ArrivedIncreasing(plan, s.next, p);
    assert all[|s.handled[p]|] == i && s.handled[p] <= all;
    SmallerBefore(all, |s.handled[p]|, s.handled[p]);
  }

  lemma SmallerBefore(all: seq<nat>, n: nat, before: seq<nat>)
    requires Increasing(all) && n < |all| && before == all[..n]
    ensures all[n] !in before
  {
    assert forall i | 0 <= i < n :: before[i] == all[i] < all[n];
  }

  lemma SameViewStatus(plan: Plan, s: State, s': State, i: nat)
    requires i < |plan.events| && SameView(s, s')
    ensures StatusOf(plan, s', i) == StatusOf(plan, s, i)
  {
  }

  /** The step of a worker changes the status of the event it holds only. */
  lemma OtherStatus(plan: Plan, s: State, step: Step, i: nat)
    requires Orderly(plan, s) && Enabled(plan, s, step) && IsWorkerStep(step)
    requires i < |plan.events| && s.workers[step.p].k != i
    ensures StatusOf(plan, Next(plan, s, step), i) == StatusOf(plan, s, i)
  {
    StepView(plan, s, step);
    HeldNotHandled(plan, s, step.p);
  }

  lemma OwnStatus(plan: Plan, s: State, step: Step)
    requires Orderly(plan, s) && Enabled(plan, s, step) && IsWorkerStep(step)
    ensures var i, w := s.workers[step.p].k, Next(plan, s, step).workers[step.p];
      && i < |plan.events|
      && StatusOf(plan, s, i) == (if step.Begin? then NotBegun else Underway(s.workers[step.p].job))
      && StatusOf(plan, Next(plan, s, step), i) == if w.Working? then Underway(w.job) else Done
  {
    StepView(plan, s, step);
    HeldNotHandled(plan, s, step.p);
  }

  lemma StatusStays(plan: Plan, s: State, step: Step, i: nat)
    requires Orderly(plan, s) && Enabled(plan, s, step) && i < |plan.events|
    ensures IsHandled(plan, s, i) ==> IsHandled(plan, Next(plan, s, step), i)
    ensures HasBegun(plan, s, i) ==> HasBegun(plan, Next(plan, s, step), i)
  {
    StepView(plan, s, step);
    if !IsWorkerStep(step) {
      SameViewStatus(plan, s, Next(plan, s, step), i);
    } else if s.workers[step.p].k != i {
      OtherStatus(plan, s, step, i);
    } else {
      OwnStatus(plan, s, step);
    }
  }

  lemma {:induction false} ExecStatusStays(plan: Plan, s: State, steps: seq<Step>, i: nat)
    requires Orderly(plan, s) && Exec(plan, s, steps).Some? && i < |plan.events| && HasBegun(plan, s, i)
    ensures HasBegun(plan, Exec(plan, s, steps).value, i)
    decreases |steps|
  {
    if steps != [] {
      NextKeepsInv(plan, s, steps[0]);
      StatusStays(plan, s, steps[0], i);
      ExecStatusStays(plan, Next(plan, s, steps[0]), steps[1..], i);
    }
  }

  /** In one queue the earlier event is handled before the later one is received. */
  lemma EarlierHandled(plan: Plan, s: State, i: nat, j: nat)
    requires Reachable(plan, s) && i < j < s.next <= |plan.events| && plan.PartitionOf(i) == plan.PartitionOf(j)
    requires var p := plan.PartitionOf(j); p < |s.handled| == |s.workers| && j in Received(s, p)
    ensures IsHandled(plan, s, i)
  {
    ReachableInv(plan, s);
    assert Sane(plan, s, plan.PartitionOf(j));
    PlaceOf(plan, s, i, j);
    if !IsHandled(plan, s, i) {
      NotYet(plan, s, i);
    }
  }

  // ---- What the handler of an event is ----

  ghost predicate IsJobOf(plan: Plan, i: nat, job: Job)
    requires i < |plan.events|
  {
    var e := plan.events[i];
    && job.script == plan.scripts(i) && job.at <= |job.outs|
    && match KindOf(e)
       case New => job.outs == Routed(plan.bot, e) && job.key == e.OwnId() && !job.sweeping && job.stale == map[]
       case Changed =>
         && job.outs == Routed(plan.bot, e)
         && (if job.sweeping then job.key == e.OriginalId() else job.key == e.OwnId() && job.stale == map[])
       case Deleted => job.outs == [] && job.key == e.DeletedId() && job.sweeping && job.kept == map[]
       case Ignored => false
  }

  // ---- The group and the others ----

  predicate Belongs(group: set<nat>, i: nat, inside: bool) {
    if inside then i in group else i !in group
  }

  /** Everything the events of the group, or the others, can touch. */
  ghost function Part(plan: Plan, group: set<nat>, inside: bool): Zone {
    Zone(set i, key | 0 <= i < |plan.events| && Belongs(group, i, inside) && key in Touches(plan.events[i]) :: key,
         set i, id | 0 <= i < |plan.events| && Belongs(group, i, inside)
                     && id in NewIds(plan.bot, plan.events[i], plan.scripts(i)) :: id)
  }

  /** The part that an event belongs to. */
  ghost function PartOf(plan: Plan, group: set<nat>, i: nat): Zone {
    if i in group then Part(plan, group, true) else Part(plan, group, false)
  }

  ghost function OtherPart(plan: Plan, group: set<nat>, i: nat): Zone {
    if i in group then Part(plan, group, false) else Part(plan, group, true)
  }

  ghost predicate IsPrivate(plan: Plan, group: set<nat>) {
    && plan.Valid()
    && Part(plan, group, true).keys !! Part(plan, group, false).keys
    && Part(plan, group, true).ids !! Part(plan, group, false).ids
  }

  lemma PartCovers(plan: Plan, group: set<nat>, i: nat)
    requires i < |plan.events|
    ensures Covers(PartOf(plan, group, i), plan.bot, plan.events[i], plan.scripts(i))
  {
  }

  lemma WholeIsPrivate(plan: Plan, group: set<nat>)
    requires plan.Valid() && forall i | 0 <= i < |plan.events| :: i in group
    ensures IsPrivate(plan, group)
  {
    assert Part(plan, group, false) == Zone({}, {});
  }

  ghost predicate HasRole(plan: Plan, group: set<nat>, w: Worker)
    requires w.Working?
  {
    w.k < |plan.events| && IsJobOf(plan, w.k, w.job) && Local(w.job, PartOf(plan, group, w.k))
  }

  /** Each handler keeps to its part. */
  ghost predicate Roles(plan: Plan, group: set<nat>, s: State) {
    && Closed(Part(plan, group, true), s.world) && Closed(Part(plan, group, false), s.world)
    && forall p | 0 <= p < |s.workers| && s.workers[p].Working? :: HasRole(plan, group, s.workers[p])
  }

  lemma WorkIsJob(plan: Plan, group: set<nat>, s: State, p: nat)
    requires Roles(plan, group, s) && p < |s.workers| && s.workers[p].Working?
    ensures s.workers[p].k < |plan.events| && IsJobOf(plan, s.workers[p].k, s.workers[p].job)
  {
    assert HasRole(plan, group, s.workers[p]);
  }

  // ---- What one step of a handler does ----

  lemma BeginIsJob(plan: Plan, s: State, p: nat)
    requires Orderly(plan, s) && Enabled(plan, s, Begin(p))
    ensures var w := Next(plan, s, Begin(p)).workers[p];
      w.Working? ==> w.k == s.workers[p].k < |plan.events| && IsJobOf(plan, w.k, w.job)
  {
  }

  lemma CallIsJob(plan: Plan, s: State, step: Step, i: nat)
    requires Shape(plan, s) && Enabled(plan, s, step) && (step.AnswerNext? || step.RetractNext?)
    requires i < |plan.events| && IsJobOf(plan, i, s.workers[step.p].job)
    ensures IsJobOf(plan, i, Next(plan, s, step).workers[step.p].job)
  {
  }

  /** It changes its own part only. */
  lemma WorkerStepLocal(plan: Plan, s: State, step: Step, z: Zone)
    requires Orderly(plan, s) && Enabled(plan, s, step) && IsWorkerStep(step) && Closed(z, s.world)
    requires var w := s.workers[step.p];
      && w.k < |plan.events| && Covers(z, plan.bot, plan.events[w.k], plan.scripts(w.k))
      && (w.Working? ==> Local(w.job, z))
    ensures var s' := Next(plan, s, step);
      && AgreeElsewhere(z, s.world, s'.world) && Closed(z, s'.world)
      && (s'.workers[step.p].Working? ==> Local(s'.workers[step.p].job, z))
  {
    var p, i := step.p, s.workers[step.p].k;
    assert Sane(plan, s, p);
    if step.Begin? {
      StartLocal(plan.bot, s.world, plan.events[i], plan.scripts(i), z);
    } else if step.Store? {
      StoreCompletes(plan, s, p);
      CompleteElsewhere(s.workers[p].job, s.world, z);
      CompleteClosed(s.workers[p].job, s.world, z);
    } else {
      CallKeepsComplete(plan, s, step, p, z);
    }
  }

  /** A step of a handler keeps the roles and does not show in the other part. */
  lemma HandlerStep(plan: Plan, group: set<nat>, s: State, step: Step)
    requires IsPrivate(plan, group) && Orderly(plan, s) && Roles(plan, group, s)
    requires Enabled(plan, s, step) && IsWorkerStep(step)
    ensures var s' := Next(plan, s, step);
      && Roles(plan, group, s')
      && Agree(OtherPart(plan, group, s.workers[step.p].k), s.world, s'.world)
      && (s'.workers[step.p].Working? ==> s'.workers[step.p].k == s.workers[step.p].k)
  {
    var s', p, i := Next(plan, s, step), step.p, s.workers[step.p].k;
    HeldNotHandled(plan, s, p);
    PartCovers(plan, group, i);
    WorkerStepLocal(plan, s, step, PartOf(plan, group, i));
    ElsewhereAgrees(PartOf(plan, group, i), OtherPart(plan, group, i), s.world, s'.world);
    if step.Begin? {
      BeginIsJob(plan, s, p);
    } else if !step.Store? {
      CallIsJob(plan, s, step, i);
    }
    StepView(plan, s, step);
    RolesAfter(plan, group, s, s', p);
  }

  lemma RolesAfter(plan: Plan, group: set<nat>, s: State, s': State, p: nat)
    requires Roles(plan, group, s) && OnlyWorker(s, s', p)
    requires Closed(Part(plan, group, true), s'.world) && Closed(Part(plan, group, false), s'.world)
    requires s'.workers[p].Working? ==> HasRole(plan, group, s'.workers[p])
    ensures Roles(plan, group, s')
  {
    forall q | 0 <= q < |s'.workers| && s'.workers[q].Working?
      ensures HasRole(plan, group, s'.workers[q])
    {
      assert q != p ==> s'.workers[q] == s.workers[q];
    }
  }

  lemma NextKeepsRoles(plan: Plan, group: set<nat>, s: State, step: Step)
    requires IsPrivate(plan, group) && Orderly(plan, s) && Roles(plan, group, s) && Enabled(plan, s, step)
    ensures Roles(plan, group, Next(plan, s, step))
  {
    if IsWorkerStep(step) {
      HandlerStep(plan, group, s, step);
    } else {
      StepView(plan, s, step);
    }
  }

  lemma {:induction false} ExecRoles(plan: Plan, group: set<nat>, s: State, steps: seq<Step>)
    requires IsPrivate(plan, group) && Orderly(plan, s) && Roles(plan, group, s) && Exec(plan, s, steps).Some?
    ensures Roles(plan, group, Exec(plan, s, steps).value)
    decreases |steps|
  {
    if steps != [] {
      NextKeepsInv(plan, s, steps[0]);
      NextKeepsRoles(plan, group, s, steps[0]);
      ExecRoles(plan, group, Next(plan, s, steps[0]), steps[1..]);
    }
  }

  lemma InitRoles(plan: Plan, group: set<nat>)
    requires plan.Valid()
    ensures Reachable(plan, Init(plan)) && Orderly(plan, Init(plan)) && Roles(plan, group, Init(plan))
  {
    assert Exec(plan, Init(plan), []) == Some(Init(plan));
    ReachableInv(plan, Init(plan));
  }

  lemma ReachableRoles(plan: Plan, group: set<nat>, s: State)
    requires IsPrivate(plan, group) && Reachable(plan, s)
    ensures Orderly(plan, s) && Roles(plan, group, s)
  {
    var steps :| Exec(plan, Init(plan), steps) == Some(s);
    InitRoles(plan, group);
    ExecRoles(plan, group, Init(plan), steps);
    ReachableInv(plan, s);
  }

  // ---- A group handled one by one ----

  function Members(order: seq<nat>): set<nat> {
    set i <- order
  }

  predicate AreEvents(plan: Plan, order: seq<nat>) {
    forall n | 0 <= n < |order| :: order[n] < |plan.events|
  }

  ghost predicate InOrder(plan: Plan, order: seq<nat>, s: State)
    requires AreEvents(plan, order)
  {
    forall i, j | 0 <= i < j < |order| && HasBegun(plan, s, order[j]) :: IsHandled(plan, s, order[i])
  }

  /** The first n of them have begun, and all of these but the last are handled. */
  ghost predicate Counts(plan: Plan, order: seq<nat>, n: nat, s: State)
    requires AreEvents(plan, order)
  {
    && n <= |order|
    && (forall i | 0 <= i < |order| :: HasBegun(plan, s, order[i]) <==> i < n)
    && (forall i | 0 <= i < n - 1 :: IsHandled(plan, s, order[i]))
  }

  /** The world once an event is handled, if it is underway. */
  ghost function Ahead(w: World, status: Status): World {
    if status.Underway? && status.job.at <= |status.job.outs| then Complete(status.job, w) else w
  }

  /** The world once the last of the first n is handled. */
  ghost function AheadOf(plan: Plan, order: seq<nat>, n: nat, s: State): World
    requires n <= |order| && AreEvents(plan, order)
  {
    if n == 0 then s.world else Ahead(s.world, StatusOf(plan, s, order[n - 1]))
  }

  /** Until now they were handled one by one: in their part of the world nothing else shows. */
  ghost predicate IsTracked(plan: Plan, order: seq<nat>, n: nat, s: State) {
    && IsPrivate(plan, Members(order)) && Increasing(order) && AreEvents(plan, order)
    && Orderly(plan, s) && Roles(plan, Members(order), s) && Counts(plan, order, n, s)
    && Agree(Part(plan, Members(order), true), AheadOf(plan, order, n, s), Fold(plan, order[..n]))
  }

  lemma OtherCounts(plan: Plan, order: seq<nat>, n: nat, s: State, step: Step)
    requires AreEvents(plan, order) && Orderly(plan, s) && Counts(plan, order, n, s) && Enabled(plan, s, step)
    requires !(IsWorkerStep(step) && s.workers[step.p].k in Members(order))
    ensures Counts(plan, order, n, Next(plan, s, step))
  {
    var s' := Next(plan, s, step);
    StepView(plan, s, step);
    forall i | 0 <= i < |order|
      ensures StatusOf(plan, s', order[i]) == StatusOf(plan, s, order[i])
    {
      if IsWorkerStep(step) {
        assert order[i] in Members(order);
        OtherStatus(plan, s, step, order[i]);
      } else {
        SameViewStatus(plan, s, s', order[i]);
      }
    }
  }

  /** The step of the handler of number m in the order. */
  ghost predicate IsStepOf(plan: Plan, order: seq<nat>, m: nat, s: State, step: Step)
    requires Shape(plan, s) && AreEvents(plan, order)
  {
    && m < |order| && Enabled(plan, s, step) && IsWorkerStep(step) && s.workers[step.p].k == order[m]
    && forall i | 0 <= i < |order| && i != m :: order[i] != order[m]
  }

  lemma MemberStatus(plan: Plan, order: seq<nat>, m: nat, s: State, step: Step)
    requires Orderly(plan, s) && AreEvents(plan, order) && IsStepOf(plan, order, m, s, step)
    ensures var s' := Next(plan, s, step);
      && (HasBegun(plan, s, order[m]) <==> !step.Begin?) && !IsHandled(plan, s, order[m])
      && HasBegun(plan, s', order[m])
      && forall i | 0 <= i < |order| && i != m ::
           && (HasBegun(plan, s', order[i]) <==> HasBegun(plan, s, order[i]))
           && (IsHandled(plan, s', order[i]) <==> IsHandled(plan, s, order[i]))
  {
    OwnStatus(plan, s, step);
    forall i | 0 <= i < |order| && i != m
      ensures StatusOf(plan, Next(plan, s, step), order[i]) == StatusOf(plan, s, order[i])
    {
      OtherStatus(plan, s, step, order[i]);
    }
  }

  lemma MemberCounts(plan: Plan, order: seq<nat>, n: nat, m: nat, s: State, step: Step)
    requires Orderly(plan, s) && AreEvents(plan, order) && Counts(plan, order, n, s)
    requires IsStepOf(plan, order, m, s, step) && InOrder(plan, order, Next(plan, s, step))
    ensures m == if step.Begin? then n else n - 1
    ensures Counts(plan, order, m + 1, Next(plan, s, step))
    ensures m > 0 ==> IsHandled(plan, s, order[m - 1])
  {
    MemberStatus(plan, order, m, s, step);
    assert m > 0 ==> IsHandled(plan, Next(plan, s, step), order[m - 1]);
  }

  /** What an event that is underway leads to is settled in its part. */
  lemma AheadAgrees(w: World, w': World, status: Status, z: Zone)
    requires Agree(z, w, w') && (status.Underway? ==> Local(status.job, z))
    ensures Agree(z, Ahead(w, status), Ahead(w', status))
  {
    if status.Underway? && status.job.at <= |status.job.outs| {
      CompleteAgree(status.job, w, w', z);
    }
  }

  lemma UnderwayIsLocal(plan: Plan, group: set<nat>, s: State, i: nat)
    requires i in group && i < |plan.events| && Roles(plan, group, s)
    ensures var status := StatusOf(plan, s, i); status.Underway? ==> Local(status.job, Part(plan, group, true))
  {
    var p := plan.PartitionOf(i);
    if StatusOf(plan, s, i).Underway? {
      assert HasRole(plan, group, s.workers[p]);
    }
  }

  /** A step that is none of theirs. */
  lemma ElsewhereTracked(plan: Plan, order: seq<nat>, n: nat, s: State, step: Step)
    requires IsTracked(plan, order, n, s) && Enabled(plan, s, step)
    requires !(IsWorkerStep(step) && s.workers[step.p].k in Members(order))
    ensures var s', z := Next(plan, s, step), Part(plan, Members(order), true);
      Agree(z, s.world, s'.world) && Agree(z, AheadOf(plan, order, n, s'), Fold(plan, order[..n]))
  {
    var s', z := Next(plan, s, step), Part(plan, Members(order), true);
    StepView(plan, s, step);
    if IsWorkerStep(step) {
      HandlerStep(plan, Members(order), s, step);
    }
    AgreeSymmetric(z, s.world, s'.world);
    if n > 0 {
      var i := order[n - 1];
      if IsWorkerStep(step) {
        OtherStatus(plan, s, step, i);
      } else {
        SameViewStatus(plan, s, s', i);
      }
      UnderwayIsLocal(plan, Members(order), s, i);
      AheadAgrees(s'.world, s.world, StatusOf(plan, s, i), z);
    }
    AgreeTransitive(z, AheadOf(plan, order, n, s'), AheadOf(plan, order, n, s), Fold(plan, order[..n]));
  }

  /** An event that begins leads to what handling it leads to. */
  lemma BeginLeadsTo(plan: Plan, s: State, p: nat)
    requires Orderly(plan, s) && Enabled(plan, s, Begin(p)) && s.workers[p].k < |plan.events|
    ensures var i, s' := s.workers[p].k, Next(plan, s, Begin(p));
      Ahead(s'.world, StatusOf(plan, s', i)) == Handle(plan.bot, s.world, plan.events[i], plan.scripts(i))
  {
    OwnStatus(plan, s, Begin(p));
  }

  lemma HandleTracks(plan: Plan, before: seq<nat>, i: nat, w: World, z: Zone)
    requires i < |plan.events| && Agree(z, w, Fold(plan, before)) && Closed(z, w)
    requires Covers(z, plan.bot, plan.events[i], plan.scripts(i))
    ensures Agree(z, Handle(plan.bot, w, plan.events[i], plan.scripts(i)), Fold(plan, before + [i]))
  {
    HandleAgree(plan.bot, w, Fold(plan, before), plan.events[i], plan.scripts(i), z);
    FoldLast(plan, before, i);
  }

  /** The next of them begins. */
  lemma BeginTracked(plan: Plan, order: seq<nat>, n: nat, s: State, p: nat)
    requires IsTracked(plan, order, n, s) && Enabled(plan, s, Begin(p))
    requires n < |order| && s.workers[p].k == order[n]
    requires n > 0 ==> IsHandled(plan, s, order[n - 1])
    ensures Agree(Part(plan, Members(order), true), AheadOf(plan, order, n + 1, Next(plan, s, Begin(p))),
                  Fold(plan, order[..n + 1]))
  {
    assert order[n] in Members(order);
    PartCovers(plan, Members(order), order[n]);
    assert AheadOf(plan, order, n, s) == s.world;
    HandleTracks(plan, order[..n], order[n], s.world, Part(plan, Members(order), true));
    assert order[..n + 1] == order[..n] + [order[n]];
    BeginLeadsTo(plan, s, p);
  }

  /** The last of them goes on, or ends. */
  lemma CallTracked(plan: Plan, order: seq<nat>, n: nat, s: State, step: Step)
    requires IsTracked(plan, order, n, s) && Enabled(plan, s, step) && IsWorkerStep(step) && !step.Begin?
    requires 0 < n <= |order| && s.workers[step.p].k == order[n - 1]
    ensures AheadOf(plan, order, n, Next(plan, s, step)) == AheadOf(plan, order, n, s)
  {
    OwnStatus(plan, s, step);
    assert Sane(plan, s, step.p);
    if step.Store? {
      StoreCompletes(plan, s, step.p);
    } else {
      CallCompletes(plan, s, step, step.p);
    }
  }

  lemma MemberTracked(plan: Plan, order: seq<nat>, n: nat, s: State, step: Step)
    requires IsTracked(plan, order, n, s) && Enabled(plan, s, step) && IsWorkerStep(step)
    requires var m := if step.Begin? then n else n - 1;
      && 0 <= m < |order| && s.workers[step.p].k == order[m]
      && (m > 0 ==> IsHandled(plan, s, order[m - 1]))
    ensures var n' := if step.Begin? then n + 1 else n;
      Agree(Part(plan, Members(order), true), AheadOf(plan, order, n', Next(plan, s, step)), Fold(plan, order[..n']))
  {
    if step.Begin? {
      BeginTracked(plan, order, n, s, step.p);
    } else {
      CallTracked(plan, order, n, s, step);
    }
  }

  lemma MemberAt(order: seq<nat>, k: nat) returns (m: nat)
    requires k in Members(order) && Increasing(order)
    ensures m < |order| && order[m] == k && forall i | 0 <= i < |order| && i != m :: order[i] != k
  {
    m :| 0 <= m < |order| && order[m] == k;
  }

  lemma NextTracked(plan: Plan, order: seq<nat>, n: nat, s: State, step: Step) returns (n': nat)
    requires IsTracked(plan, order, n, s) && Enabled(plan, s, step) && InOrder(plan, order, Next(plan, s, step))
    ensures IsTracked(plan, order, n', Next(plan, s, step))
  {
    NextKeepsInv(plan, s, step);
    NextKeepsRoles(plan, Members(order), s, step);
    if !(IsWorkerStep(step) && s.workers[step.p].k in Members(order)) {
      n' := n;
      OtherCounts(plan, order, n, s, step);
      ElsewhereTracked(plan, order, n, s, step);
    } else {
      n' := MemberNext(plan, order, n, s, step);
    }
  }

  lemma MemberNext(plan: Plan, order: seq<nat>, n: nat, s: State, step: Step) returns (n': nat)
    requires IsTracked(plan, order, n, s) && Enabled(plan, s, step) && InOrder(plan, order, Next(plan, s, step))
    requires IsWorkerStep(step) && s.workers[step.p].k in Members(order)
    ensures Counts(plan, order, n', Next(plan, s, step))
    ensures Agree(Part(plan, Members(order), true), AheadOf(plan, order, n', Next(plan, s, step)),
                  Fold(plan, order[..n']))
  {
    var m := MemberAt(order, s.workers[step.p].k);
    n' := m + 1;
    MemberCounts(plan, order, n, m, s, step);
    MemberTracked(plan, order, n, s, step);
  }

  lemma InitTracked(plan: Plan, order: seq<nat>)
    requires IsPrivate(plan, Members(order)) && Increasing(order) && AreEvents(plan, order)
    ensures IsTracked(plan, order, 0, Init(plan))
  {
    InitRoles(plan, Members(order));
  }
}
