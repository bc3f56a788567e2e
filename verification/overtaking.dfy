/**
 Exactly when one event can be handled before another one that arrived earlier, such as a deletion before the
 message it deletes, whose queues the router picks by different timestamps.
 */
module Overtaking {
  import opened Text
  import opened Reconcile
  import opened Dispatch

  predicate IsHandled(plan: Plan, s: State, k: nat)
    requires k < |plan.events|
  {
    plan.PartitionOf(k) < |s.handled| && k in s.handled[plan.PartitionOf(k)]
  }

  /** The handler of the event has looked up the cache, and may be done. */
  ghost predicate HasBegun(plan: Plan, s: State, k: nat)
    requires k < |plan.events|
  {
    var q := plan.PartitionOf(k);
    IsHandled(plan, s, k) || (q < |s.workers| && s.workers[q].Working? && s.workers[q].k == k)
  }

  /** The number of events between j and n that go to the queue of j. */
  function Between(plan: Plan, j: nat, n: nat): nat
    requires j < n <= |plan.events|
  {
    if n == j + 1 then 0
    else Between(plan, j, n - 1) + if plan.PartitionOf(n - 1) == plan.PartitionOf(j) then 1 else 0
  }

  /** They are in different queues, and the buffer of the earlier one's has room for what arrives in between. */
  predicate CanOvertake(plan: Plan, j: nat, k: nat)
    requires j < k < |plan.events|
  {
    plan.PartitionOf(j) != plan.PartitionOf(k) && Between(plan, j, k) <= plan.capacity
  }

  // ---- When it cannot ----

  /** An event's place among those of its queue. */
  lemma {:induction false} ArrivedAt(plan: Plan, j: nat, n: nat)
    requires j < n <= |plan.events|
    ensures var p := plan.PartitionOf(j);
      && |Arrived(plan, n, p)| == |Arrived(plan, j, p)| + 1 + Between(plan, j, n)
      && Arrived(plan, n, p)[|Arrived(plan, j, p)|] == j
  {
    if n > j + 1 {
      ArrivedAt(plan, j, n - 1);
    }
  }

  lemma {:induction false} BetweenGrows(plan: Plan, j: nat, k: nat, n: nat)
    requires j < k <= n <= |plan.events|
    ensures Between(plan, j, k) <= Between(plan, j, n)
  {
    if k < n {
      BetweenGrows(plan, j, k, n - 1);
    }
  }

  /** A queue hands out its events in the order of their arrival. */
  lemma NotYet(plan: Plan, s: State, j: nat)
    requires Reachable(plan, s) && j < s.next <= |plan.events| && !IsHandled(plan, s, j)
    ensures plan.PartitionOf(j) < |s.handled|
    ensures |s.handled[plan.PartitionOf(j)]| <= |Arrived(plan, j, plan.PartitionOf(j))|
  {
    ReachableInv(plan, s);
    var p := plan.PartitionOf(j);
    assert Sane(plan, s, p);
    var all, handled, place := Arrived(plan, s.next, p), s.handled[p], |Arrived(plan, j, p)|;
    ArrivedAt(plan, j, s.next);
    assert handled <= all;
    PrefixWithout(handled, all, place);
  }

  lemma PrefixWithout(ks: seq<nat>, all: seq<nat>, i: nat)
    requires ks <= all && i < |all| && all[i] !in ks
    ensures |ks| <= i
  {
    assert forall j | 0 <= j < |ks| :: all[j] == ks[j];
  }

  /** The events that the worker of a queue has handled or holds. */
  function Received(s: State, q: nat): seq<nat>
    requires q < |s.workers| == |s.handled|
  {
    s.handled[q] + InHand(s.workers[q])
  }

  lemma BegunReceived(plan: Plan, s: State, k: nat)
    requires k < |plan.events| && HasBegun(plan, s, k) && Sane(plan, s, plan.PartitionOf(k))
    ensures k in Received(s, plan.PartitionOf(k)) && k < s.next
  {
    var q := plan.PartitionOf(k);
    ArrivedExactly(plan, s.next, q);
    assert Received(s, q) + s.queues[q] == Arrived(plan, s.next, q);
    assert k in Received(s, q) + s.queues[q];
  }

  /** In one queue, an event is received only after all earlier ones are handled. */
  lemma PlaceOf(plan: Plan, s: State, j: nat, k: nat)
    requires j < k < s.next <= |plan.events| && plan.PartitionOf(j) == plan.PartitionOf(k)
    requires Sane(plan, s, plan.PartitionOf(j)) && k in Received(s, plan.PartitionOf(j))
    ensures |s.handled[plan.PartitionOf(j)]| > |Arrived(plan, j, plan.PartitionOf(j))|
  {
    var p := plan.PartitionOf(j);
    var all, place := Arrived(plan, s.next, p), |Arrived(plan, j, p)|;
    ArrivedAt(plan, j, s.next);
    ArrivedIncreasing(plan, s.next, p);
    assert Received(s, p) + s.queues[p] == all;
    var y :| 0 <= y < |Received(s, p)| && Received(s, p)[y] == k;
    assert all[y] == k && all[place] == j;
    SmallerFirst(all, place, y);
  }

  /**
   An event can be unfinished when a later one begins only if that one is in another queue, and only if the buffer of
   its own queue holds what follows it there.
   */
  lemma OvertakenOnlyIf(plan: Plan, s: State, j: nat, k: nat)
    requires Reachable(plan, s) && j < k < |plan.events| && HasBegun(plan, s, k) && !IsHandled(plan, s, j)
    ensures CanOvertake(plan, j, k)
  {
    ReachableInv(plan, s);
    var p := plan.PartitionOf(j);
    assert Sane(plan, s, p) && Sane(plan, s, plan.PartitionOf(k));
    BegunReceived(plan, s, k);
    NotYet(plan, s, j);
    ArrivedAt(plan, j, s.next);
    BetweenGrows(plan, j, k, s.next);
    if p == plan.PartitionOf(k) {
      PlaceOf(plan, s, j, k);
    }
    assert |Arrived(plan, s.next, p)| == |s.handled[p]| + |InHand(s.workers[p])| + |s.queues[p]|;
  }

  lemma HandledArrived(plan: Plan, s: State, q: nat, k: nat)
    requires Sane(plan, s, q) && k in s.handled[q]
    ensures k < s.next
  {
    ArrivedExactly(plan, s.next, q);
    assert s.handled[q] <= Arrived(plan, s.next, q);
    assert k in Arrived(plan, s.next, q);
  }

  lemma SmallerFirst(ks: seq<nat>, i: nat, j: nat)
    requires Increasing(ks) && i < |ks| && j < |ks| && ks[i] < ks[j]
    ensures i < j
  {
  }

  // ---- When it can ----

  lemma {:induction false} ExecMore(plan: Plan, s: State, steps: seq<Step>, step: Step)
    requires Exec(plan, s, steps).Some?
    requires var end := Exec(plan, s, steps).value; Shape(plan, end) && Enabled(plan, end, step)
    ensures Exec(plan, s, steps + [step]) == Some(Next(plan, Exec(plan, s, steps).value, step))
    decreases |steps|
  {
    if steps == [] {
      assert [] + [step] == [step] && [step][1..] == [];
      assert Exec(plan, Next(plan, s, step), []) == Some(Next(plan, s, step));
    } else {
      ExecMore(plan, Next(plan, s, steps[0]), steps[1..], step);
      assert (steps + [step])[1..] == steps[1..] + [step];
    }
  }

  lemma ReachMore(plan: Plan, s: State, step: Step)
    requires Reachable(plan, s) && Shape(plan, s) && Enabled(plan, s, step)
    ensures Reachable(plan, Next(plan, s, step))
  {
    var steps :| Exec(plan, Init(plan), steps) == Some(s);
    ExecMore(plan, Init(plan), steps, step);
  }

  /** The state after a worker finishes the event it holds, its world aside. */
  ghost predicate Finished(s: State, s': State, q: nat) {
    && q < |s.workers| == |s.handled| && (s.workers[q].Taken? || s.workers[q].Working?)
    && s' == s.(workers := s.workers[q := Idle], handled := s.handled[q := s.handled[q] + [s.workers[q].k]],
                world := s'.world)
  }

  /** The state after a step of a handler that does not end it. */
  ghost predicate Moved(s: State, s': State, q: nat) {
    && q < |s.workers| && (s.workers[q].Taken? || s.workers[q].Working?)
    && q < |s'.workers| && s'.workers[q].Working? && s'.workers[q].k == s.workers[q].k
    && s' == s.(workers := s.workers[q := s'.workers[q]], world := s'.world)
    && (s.workers[q].Working? ==> Work(s'.workers[q]) < Work(s.workers[q]))
  }

  /** The world once the worker of queue q has finished its event, if the others wait. */
  ghost function WorldAfter(plan: Plan, s: State, q: nat): World {
    if q < |s.workers| && s.workers[q].Taken? && s.workers[q].k < |plan.events| then
      Handle(plan.bot, s.world, plan.events[s.workers[q].k], plan.scripts(s.workers[q].k))
    else if q < |s.workers| && s.workers[q].Working? && s.workers[q].job.at <= |s.workers[q].job.outs| then
      Complete(s.workers[q].job, s.world)
    else s.world
  }

  lemma BeginMoves(plan: Plan, s: State, q: nat)
    requires Orderly(plan, s) && q < plan.count && s.workers[q].Taken?
    ensures var s' := Next(plan, s, Begin(q));
      (Finished(s, s', q) || Moved(s, s', q)) && WorldAfter(plan, s', q) == WorldAfter(plan, s, q)
  {
  }

  lemma CallMoves(plan: Plan, s: State, step: Step, q: nat)
    requires Orderly(plan, s) && Enabled(plan, s, step)
    requires step == AnswerNext(q) || exists a :: step == RetractNext(q, a)
    ensures Moved(s, Next(plan, s, step), q)
    ensures WorldAfter(plan, Next(plan, s, step), q) == WorldAfter(plan, s, q)
  {
    assert Sane(plan, s, q);
    CallCompletes(plan, s, step, q);
  }

  lemma StoreFinishes(plan: Plan, s: State, q: nat)
    requires Orderly(plan, s) && Enabled(plan, s, Store(q))
    ensures Finished(s, Next(plan, s, Store(q)), q) && Next(plan, s, Store(q)).world == WorldAfter(plan, s, q)
  {
    assert Sane(plan, s, q);
    StoreCompletes(plan, s, q);
  }

  lemma NextMoves(plan: Plan, s: State, q: nat) returns (step: Step)
    requires Orderly(plan, s) && q < plan.count && (s.workers[q].Taken? || s.workers[q].Working?)
    ensures Enabled(plan, s, step)
    ensures Finished(s, Next(plan, s, step), q) || Moved(s, Next(plan, s, step), q)
    ensures WorldAfter(plan, Next(plan, s, step), q) == WorldAfter(plan, s, q)
  {
    if s.workers[q].Taken? {
      BeginMoves(plan, s, q);
      return Begin(q);
    }
    if Answering(s.workers[q].job) {
      CallMoves(plan, s, AnswerNext(q), q);
      return AnswerNext(q);
    }
    if a :| a in s.workers[q].job.stale {
      CallMoves(plan, s, RetractNext(q, a), q);
      return RetractNext(q, a);
    }
    StoreFinishes(plan, s, q);
    return Store(q);
  }

  /** A worker can finish the event it holds while the others wait. */
  lemma {:induction false} Finish(plan: Plan, s: State, q: nat) returns (s': State)
    requires Reachable(plan, s) && Shape(plan, s) && q < plan.count
    requires s.workers[q].Taken? || s.workers[q].Working?
    ensures Reachable(plan, s') && Shape(plan, s') && Finished(s, s', q) && s'.world == WorldAfter(plan, s, q)
    decreases Stage(s.workers[q]), Work(s.workers[q])
  {
    ReachableInv(plan, s);
    var step := NextMoves(plan, s, q);
    ReachMore(plan, s, step);
    NextKeepsInv(plan, s, step);
    s' := Next(plan, s, step);
    if !Finished(s, s', q) {
      s' := Finish(plan, Next(plan, s, step), q);
    }
  }

  /** Every queue but that of number p is empty and its worker waits. */
  ghost predicate CalmBut(plan: Plan, s: State, p: nat) {
    && Shape(plan, s) && Reachable(plan, s) && s.main.Running?
    && forall q | 0 <= q < plan.count && q != p :: s.workers[q].Idle? && s.queues[q] == []
  }

  /** The next event goes to a waiting worker, which handles it. */
  lemma HandleNext(plan: Plan, s: State, p: nat) returns (s': State)
    requires CalmBut(plan, s, p) && s.next < |plan.events|
    requires var q := plan.PartitionOf(s.next); s.workers[q].Idle? && s.queues[q] == []
    ensures CalmBut(plan, s', p) && s'.next == s.next + 1 && s'.workers == s.workers && s'.queues == s.queues
    ensures s'.handled == var q := plan.PartitionOf(s.next); s.handled[q := s.handled[q] + [s.next]]
    ensures s'.world == Handle(plan.bot, s.world, plan.events[s.next], plan.scripts(s.next))
  {
    var q := plan.PartitionOf(s.next);
    ReachableInv(plan, s);
    ReachMore(plan, s, HandOver);
    NextKeepsInv(plan, s, HandOver);
    s' := Finish(plan, Next(plan, s, HandOver), q);
    assert s.workers[q := Taken(s.next)][q := Idle] == s.workers;
  }

  /** The first n events handled one by one. */
  lemma {:induction false} HandleFirst(plan: Plan, n: nat) returns (s: State)
    requires plan.Valid() && n <= |plan.events|
    ensures CalmBut(plan, s, plan.count) && s.next == n
  {
    if n == 0 {
      s := Init(plan);
      assert Exec(plan, s, []) == Some(s);
    } else {
      var before := HandleFirst(plan, n - 1);
      s := HandleNext(plan, before, plan.count);
    }
  }

  /** The worker of event j dwells on it while the main loop goes on to event n. */
  lemma {:induction false} Dwell(plan: Plan, j: nat, n: nat) returns (s: State)
    requires plan.Valid() && j < n <= |plan.events| && Between(plan, j, n) <= plan.capacity
    ensures CalmBut(plan, s, plan.PartitionOf(j)) && s.next == n && !IsHandled(plan, s, j)
    ensures var p := plan.PartitionOf(j); s.workers[p] == Taken(j) && |s.queues[p]| == Between(plan, j, n)
  {
    var p := plan.PartitionOf(j);
    if n == j + 1 {
      var before := HandleFirst(plan, j);
      ReachableInv(plan, before);
      assert Sane(plan, before, p);
      ReachMore(plan, before, HandOver);
      NextKeepsInv(plan, before, HandOver);
      s := Next(plan, before, HandOver);
      if j in before.handled[p] {
        HandledArrived(plan, before, p, j);
      }
    } else {
      var before := Dwell(plan, j, n - 1);
      if plan.PartitionOf(n - 1) == p {
        ReachableInv(plan, before);
        ReachMore(plan, before, Enqueue);
        NextKeepsInv(plan, before, Enqueue);
        s := Next(plan, before, Enqueue);
      } else {
        s := HandleNext(plan, before, p);
      }
    }
  }

  lemma Overtake(plan: Plan, j: nat, k: nat) returns (s: State)
    requires plan.Valid() && j < k < |plan.events|
    requires CanOvertake(plan, j, k)
    ensures Reachable(plan, s) && s.main.Running? && IsHandled(plan, s, k) && !IsHandled(plan, s, j)
    ensures var p := plan.PartitionOf(j); p < |s.workers| && s.workers[p] == Taken(j)
  {
    var before := Dwell(plan, j, k);
    s := HandleNext(plan, before, plan.PartitionOf(j));
  }

  /**
   Some run begins, or even finishes, the later of two events before the earlier one is finished if and only if they
   are in different queues and the buffer of the earlier one's queue has room for all events of that queue that
   arrive between the two.
   */
  lemma OvertakesIff(plan: Plan, j: nat, k: nat)
    requires plan.Valid() && j < k < |plan.events|
    ensures (exists s :: Reachable(plan, s) && HasBegun(plan, s, k) && !IsHandled(plan, s, j))
      <==> CanOvertake(plan, j, k)
    ensures (exists s :: Reachable(plan, s) && IsHandled(plan, s, k) && !IsHandled(plan, s, j))
      <==> CanOvertake(plan, j, k)
  {
    if s :| Reachable(plan, s) && HasBegun(plan, s, k) && !IsHandled(plan, s, j) {
      OvertakenOnlyIf(plan, s, j, k);
    }
    if s :| Reachable(plan, s) && IsHandled(plan, s, k) && !IsHandled(plan, s, j) {
      OvertakenOnlyIf(plan, s, j, k);
    }
    if CanOvertake(plan, j, k) {
      var s := Overtake(plan, j, k);
      assert HasBegun(plan, s, k);
    }
  }
}
