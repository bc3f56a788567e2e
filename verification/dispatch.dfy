/**
 The main loop, the bounded queues and their workers as a transition system. A step is one channel operation of
 the main loop or of a worker, or one cache or driver operation of a handler; steps interleave in any order.
 */
module Dispatch {
  import opened Text
  import opened Messages
  import opened Actions
  import opened Reconcile
  import opened Routing

  /**
   The events to come before the goodbye, what the driver answers for each, the queue the router picks for an
   original message id, and the number and capacity of the queues.
   */
  datatype Plan = Plan(bot: Bot, events: seq<MessageEvent>, scripts: nat -> Script,
                       partition: MsgId -> nat, count: nat, capacity: nat)
  {
    ghost predicate Valid() {
      count > 0 && forall id :: partition(id) < count
    }

    /** The queue of the event at position k. */
    function PartitionOf(k: nat): nat
      requires k < |events|
    {
      partition(events[k].OriginalId())
    }
  }

  /** The plan of a router with a power of two of queues. */
  function PlanFor(bot: Bot, events: seq<MessageEvent>, scripts: nat -> Script,
                   checksum: string -> bv32, count: nat, capacity: nat): Plan
    requires 0 < count <= MAX_INT && IsPowerOfTwo(count)
  {
    Plan(bot, events, scripts, id => Partition(checksum, count, id), count, capacity)
  }

  lemma PlanForIsValid(bot: Bot, events: seq<MessageEvent>, scripts: nat -> Script,
                       checksum: string -> bv32, count: nat, capacity: nat)
    requires 0 < count <= MAX_INT && IsPowerOfTwo(count)
    ensures var plan := PlanFor(bot, events, scripts, checksum, count, capacity);
      plan.Valid() && forall id :: plan.partition(id) == checksum(id.channel + id.timestamp) as nat % count
  {
  }

  /** Aborted is the return that closes nothing: invalid credentials, an unknown identity, the end of the events. */
  datatype Main = Running | Closing(i: nat) | Waiting(i: nat) | Returned | Aborted

  /** A worker waits for an event, holds one, runs its handler, or has left its loop. */
  datatype Worker = Idle | Taken(k: nat) | Working(k: nat, job: Job) | Stopped | Joined

  /** Events are named by their position; `handled` lists what each worker has handled, in order. */
  datatype State = State(main: Main, next: nat, queues: seq<seq<nat>>, closed: seq<bool>,
                         workers: seq<Worker>, world: World, handled: seq<seq<nat>>)

  datatype Step =
    | Enqueue | HandOver | Goodbye | Abort | Close | Join
    | Take(p: nat) | Begin(p: nat) | AnswerNext(p: nat) | RetractNext(p: nat, action: string) | Store(p: nat)
    | Stop(p: nat)

  function InHand(w: Worker): seq<nat> {
    if w.Taken? || w.Working? then [w.k] else []
  }

  /** Events of the stream that belong to one queue. */
  predicate Mine(plan: Plan, ks: seq<nat>, p: nat)
  {
    forall k <- ks :: k < |plan.events| && plan.PartitionOf(k) == p
  }

  ghost predicate Shape(plan: Plan, s: State) {
    && plan.Valid()
    && |s.queues| == |s.closed| == |s.workers| == |s.handled| == plan.count
    && s.next <= |plan.events|
    && (forall p | 0 <= p < plan.count && s.workers[p].Taken? :: s.workers[p].k < |plan.events|)
    && (s.main.Closing? || s.main.Waiting? ==> s.main.i < plan.count)
  }

  function Init(plan: Plan): State {
    State(Running, 0, seq(plan.count, i => []), seq(plan.count, i => false), seq(plan.count, i => Idle),
          World(map[], map[]), seq(plan.count, i => []))
  }

  ghost predicate Enabled(plan: Plan, s: State, step: Step)
    requires Shape(plan, s)
  {
    match step
    // A send on a channel goes into its buffer, or straight to a waiting receiver.
    case Enqueue => s.main.Running? && s.next < |plan.events| && |s.queues[plan.PartitionOf(s.next)]| < plan.capacity
    case HandOver =>
      && s.main.Running? && s.next < |plan.events|
      && s.queues[plan.PartitionOf(s.next)] == [] && s.workers[plan.PartitionOf(s.next)].Idle?
    case Goodbye => s.main.Running? && s.next == |plan.events|
    case Abort => s.main.Running?
    case Close => s.main.Closing?
    // The termination signal is received once its sender is ready.
    case Join => s.main.Waiting? && s.workers[s.main.i].Stopped?
    case Take(p) => p < plan.count && s.workers[p].Idle? && s.queues[p] != []
    case Begin(p) => p < plan.count && s.workers[p].Taken?
    case AnswerNext(p) => p < plan.count && s.workers[p].Working? && Answering(s.workers[p].job)
    case RetractNext(p, a) =>
      p < plan.count && s.workers[p].Working? && !Answering(s.workers[p].job) && a in s.workers[p].job.stale
    case Store(p) =>
      p < plan.count && s.workers[p].Working? && !Answering(s.workers[p].job) && s.workers[p].job.stale == map[]
    // The range loop over a queue ends when the queue is closed and drained.
    case Stop(p) => p < plan.count && s.workers[p].Idle? && s.queues[p] == [] && s.closed[p]
  }

  /** One stale response deleted. */
  function RetractStep(p: Progress, a: string): Progress
    requires a in p.job.stale
  {
    var r := p.job.stale[a];
    Progress(p.job.(stale := p.job.stale - {a}), Retracted(p.posts, r, p.job.script.deleted(r)))
  }

  ghost function Next(plan: Plan, s: State, step: Step): State
    requires Shape(plan, s) && Enabled(plan, s, step)
  {
    match step
    case Enqueue =>
      var p := plan.PartitionOf(s.next);
      s.(next := s.next + 1, queues := s.queues[p := s.queues[p] + [s.next]])
    case HandOver =>
      var p := plan.PartitionOf(s.next);
      s.(next := s.next + 1, workers := s.workers[p := Taken(s.next)])
    case Goodbye => s.(main := Closing(0))
    case Abort => s.(main := Aborted)
    case Close =>
      var i := s.main.i;
      s.(main := if i + 1 == plan.count then Waiting(0) else Closing(i + 1), closed := s.closed[i := true])
    case Join =>
      var i := s.main.i;
      s.(main := if i + 1 == plan.count then Returned else Waiting(i + 1), workers := s.workers[i := Joined])
    case Take(p) =>
      s.(queues := s.queues[p := s.queues[p][1..]], workers := s.workers[p := Taken(s.queues[p][0])])
    case Begin(p) =>
      var k := s.workers[p].k;
      var job := Start(plan.bot, s.world.cache, plan.events[k], plan.scripts(k));
      if job.None? then s.(workers := s.workers[p := Idle], handled := s.handled[p := s.handled[p] + [k]])
      else s.(workers := s.workers[p := Working(k, job.value)])
    case AnswerNext(p) =>
      var progress := AnswerOne(Progress(s.workers[p].job, s.world.posts));
      s.(workers := s.workers[p := Working(s.workers[p].k, progress.job)],
         world := s.world.(posts := progress.posts))
    case RetractNext(p, a) =>
      var progress := RetractStep(Progress(s.workers[p].job, s.world.posts), a);
      s.(workers := s.workers[p := Working(s.workers[p].k, progress.job)],
         world := s.world.(posts := progress.posts))
    case Store(p) =>
      s.(workers := s.workers[p := Idle], handled := s.handled[p := s.handled[p] + [s.workers[p].k]],
         world := s.world.(cache := CacheAfter(s.workers[p].job, s.world.cache)))
    case Stop(p) => s.(workers := s.workers[p := Stopped])
  }

  /** The state a schedule leads to from s, unless some step of it cannot be taken. */
  ghost function Exec(plan: Plan, s: State, steps: seq<Step>): Option<State>
    decreases |steps|
  {
    if steps == [] then Some(s)
    else if Shape(plan, s) && Enabled(plan, s, steps[0]) then Exec(plan, Next(plan, s, steps[0]), steps[1..])
    else None
  }

  /** A state some schedule leads to from the start. */
  ghost predicate Reachable(plan: Plan, s: State) {
    plan.Valid() && exists steps :: Exec(plan, Init(plan), steps) == Some(s)
  }

  // ---- The world a handler leads to ----

  lemma AnswerOneFrame(p: Progress)
    requires Answering(p.job)
    ensures var q := AnswerOne(p).job;
      q.key == p.job.key && q.outs == p.job.outs && q.script == p.job.script && q.sweeping == p.job.sweeping
      && q.at == p.job.at + 1
  {
  }

  /** A driver call brings a handler closer to the same end. */
  lemma CallCompletes(plan: Plan, s: State, step: Step, p: nat)
    requires Shape(plan, s) && Enabled(plan, s, step)
    requires step == AnswerNext(p) || exists a :: step == RetractNext(p, a)
    requires s.workers[p].job.at <= |s.workers[p].job.outs|
    ensures var s' := Next(plan, s, step);
      && s'.workers[p].Working? && s'.workers[p].k == s.workers[p].k
      && s'.workers[p].job.at <= |s'.workers[p].job.outs|
      && Complete(s'.workers[p].job, s'.world) == Complete(s.workers[p].job, s.world)
      && s'.world.cache == s.world.cache
  {
    var job := s.workers[p].job;
    if step.AnswerNext? {
      AnswerOneFrame(Progress(job, s.world.posts));
    } else {
      RetractOne(s.world.posts, job.stale, job.script, step.action);
    }
  }

  lemma StoreCompletes(plan: Plan, s: State, p: nat)
    requires Shape(plan, s) && Enabled(plan, s, Store(p)) && s.workers[p].job.at <= |s.workers[p].job.outs|
    ensures Next(plan, s, Store(p)).world == Complete(s.workers[p].job, s.world)
  {
    RetractNone(s.world.posts, s.workers[p].job.script);
  }

  // ---- Subsequences of events ----

  /** Those of the first n events that belong to a queue, in order. */
  function Arrived(plan: Plan, n: nat, p: nat): seq<nat>
    requires n <= |plan.events|
  {
    if n == 0 then []
    else Arrived(plan, n - 1, p) + if plan.PartitionOf(n - 1) == p then [n - 1] else []
  }

  /** Those of the first n events that are about a message, in order. */
  function ArrivedAbout(plan: Plan, n: nat, id: MsgId): seq<nat>
    requires n <= |plan.events|
  {
    if n == 0 then []
    else ArrivedAbout(plan, n - 1, id) + if plan.events[n - 1].OriginalId() == id then [n - 1] else []
  }

  /** The listed events that are about a message, in order. */
  function About(plan: Plan, ks: seq<nat>, id: MsgId): seq<nat> {
    if ks == [] then []
    else
      var before, k := ks[..|ks| - 1], ks[|ks| - 1];
      About(plan, before, id) + if k < |plan.events| && plan.events[k].OriginalId() == id then [k] else []
  }

  lemma AboutLast(plan: Plan, ks: seq<nat>, k: nat, id: MsgId)
    ensures About(plan, ks + [k], id)
      == About(plan, ks, id) + if k < |plan.events| && plan.events[k].OriginalId() == id then [k] else []
  {
    assert (ks + [k])[..|ks|] == ks;
  }

  lemma {:induction false} AboutConcat(plan: Plan, ks: seq<nat>, more: seq<nat>, id: MsgId)
    ensures About(plan, ks + more, id) == About(plan, ks, id) + About(plan, more, id)
  {
    if more == [] {
      assert ks + more == ks;
    } else {
      var before, last := more[..|more| - 1], more[|more| - 1];
      AboutConcat(plan, ks, before, id);
      AboutLast(plan, ks + before, last, id);
      AboutLast(plan, before, last, id);
      assert more == before + [last] && ks + more == ks + before + [last];
    }
  }

  lemma {:induction false} ArrivedExactly(plan: Plan, n: nat, p: nat)
    requires n <= |plan.events|
    ensures forall k: nat :: k in Arrived(plan, n, p) <==> k < n && plan.PartitionOf(k) == p
  {
    if n > 0 {
      ArrivedExactly(plan, n - 1, p);
    }
  }

  lemma {:induction false} ArrivedIncreasing(plan: Plan, n: nat, p: nat)
    requires n <= |plan.events|
    ensures Increasing(Arrived(plan, n, p))
    ensures forall i | 0 <= i < |Arrived(plan, n, p)| :: Arrived(plan, n, p)[i] < n
  {
    if n > 0 {
      ArrivedIncreasing(plan, n - 1, p);
      if plan.PartitionOf(n - 1) == p {
        OneMore(Arrived(plan, n - 1, p), n - 1);
      } else {
        assert Arrived(plan, n, p) == Arrived(plan, n - 1, p);
      }
    }
  }

  lemma OneMore(ks: seq<nat>, k: nat)
    requires Increasing(ks) && forall i | 0 <= i < |ks| :: ks[i] < k
    ensures Increasing(ks + [k]) && forall i | 0 <= i < |ks + [k]| :: (ks + [k])[i] <= k
  {
  }

  /** Events about one message share a queue. */
  lemma {:induction false} AboutArrived(plan: Plan, n: nat, id: MsgId)
    requires n <= |plan.events|
    ensures About(plan, Arrived(plan, n, plan.partition(id)), id) == ArrivedAbout(plan, n, id)
  {
    if n > 0 {
      var ks := Arrived(plan, n - 1, plan.partition(id));
      AboutArrived(plan, n - 1, id);
      assert (ks + [n - 1])[..|ks|] == ks && ks + [] == ks;
    }
  }

  predicate Increasing(ks: seq<nat>) {
    forall i, j | 0 <= i < j < |ks| :: ks[i] < ks[j]
  }

  // ---- Safety ----

  /** What was handled, what is in hand and what waits make up what arrived, in order, for each queue. */
  ghost predicate Fifo(plan: Plan, s: State, p: nat)
    requires p < |s.queues| == |s.workers| == |s.handled| && s.next <= |plan.events|
  {
    s.handled[p] + InHand(s.workers[p]) + s.queues[p] == Arrived(plan, s.next, p)
  }

  /** A queue is closed once the main loop has closed it, and only then does its worker leave. */
  ghost predicate Closes(plan: Plan, s: State, p: nat)
    requires p < |s.queues| == |s.workers| == |s.closed|
  {
    && (s.closed[p] <==> s.main.Waiting? || s.main.Returned? || (s.main.Closing? && p < s.main.i))
    && (s.workers[p].Stopped? || s.workers[p].Joined? ==> s.closed[p] && s.queues[p] == [])
    && (s.workers[p].Joined? <==> s.main.Returned? || (s.main.Waiting? && p < s.main.i))
    && |s.queues[p]| <= plan.capacity
  }

  /** The state of one queue and its worker. */
  ghost predicate Sane(plan: Plan, s: State, p: nat) {
    && p < |s.queues| == |s.workers| == |s.closed| == |s.handled| && s.next <= |plan.events|
    && Mine(plan, s.queues[p], p) && Mine(plan, InHand(s.workers[p]), p)
    && (s.workers[p].Working? ==> s.workers[p].job.at <= |s.workers[p].job.outs|)
    && Fifo(plan, s, p) && Closes(plan, s, p)
  }

  ghost predicate Orderly(plan: Plan, s: State) {
    && Shape(plan, s)
    && (!s.main.Running? && !s.main.Aborted? ==> s.next == |plan.events|)
    && (forall p | 0 <= p < plan.count :: Sane(plan, s, p))
  }

  lemma ArrivalKeepsSane(plan: Plan, s: State, step: Step, p: nat)
    requires Orderly(plan, s) && Enabled(plan, s, step) && p < plan.count && (step.Enqueue? || step.HandOver?)
    ensures Sane(plan, Next(plan, s, step), p)
  {
    assert Sane(plan, s, p);
  }

  lemma MainKeepsSane(plan: Plan, s: State, step: Step, p: nat)
    requires Orderly(plan, s) && Enabled(plan, s, step) && p < plan.count
    requires step.Goodbye? || step.Abort? || step.Close? || step.Join?
    ensures Sane(plan, Next(plan, s, step), p)
  {
    assert Sane(plan, s, p);
  }

  lemma TakeKeepsSane(plan: Plan, s: State, step: Step, p: nat)
    requires Orderly(plan, s) && Enabled(plan, s, step) && p < plan.count && (step.Take? || step.Stop?)
    ensures Sane(plan, Next(plan, s, step), p)
  {
    assert Sane(plan, s, p);
    if step.Take? && step.p == p {
      var k, rest := s.queues[p][0], s.queues[p][1..];
      assert s.queues[p] == [k] + rest && k in s.queues[p] && forall j <- rest :: j in s.queues[p];
      assert s.handled[p] + [k] + rest == s.handled[p] + [] + s.queues[p];
    }
  }

  lemma CallKeepsSane(plan: Plan, s: State, step: Step, p: nat)
    requires Orderly(plan, s) && Enabled(plan, s, step) && p < plan.count && (step.AnswerNext? || step.RetractNext?)
    ensures Sane(plan, Next(plan, s, step), p)
  {
    assert Sane(plan, s, p);
  }

  lemma BeginKeepsSane(plan: Plan, s: State, step: Step, p: nat)
    requires Orderly(plan, s) && Enabled(plan, s, step) && p < plan.count && step.Begin?
    ensures Sane(plan, Next(plan, s, step), p)
  {
    assert Sane(plan, s, p);
  }

  lemma StoreKeepsSane(plan: Plan, s: State, step: Step, p: nat)
    requires Orderly(plan, s) && Enabled(plan, s, step) && p < plan.count && step.Store?
    ensures Sane(plan, Next(plan, s, step), p)
  {
    assert Sane(plan, s, p);
  }

  lemma NextKeepsInv(plan: Plan, s: State, step: Step)
    requires Orderly(plan, s) && Enabled(plan, s, step)
    ensures Orderly(plan, Next(plan, s, step))
  {
    var s' := Next(plan, s, step);
    forall p | 0 <= p < plan.count
      ensures Sane(plan, s', p)
    {
      match step {
        case Enqueue => ArrivalKeepsSane(plan, s, step, p);
        case HandOver => ArrivalKeepsSane(plan, s, step, p);
        case Goodbye => MainKeepsSane(plan, s, step, p);
        case Abort => MainKeepsSane(plan, s, step, p);
        case Close => MainKeepsSane(plan, s, step, p);
        case Join => MainKeepsSane(plan, s, step, p);
        case Take(_) => TakeKeepsSane(plan, s, step, p);
        case Stop(_) => TakeKeepsSane(plan, s, step, p);
        case Begin(_) => BeginKeepsSane(plan, s, step, p);
        case Store(_) => StoreKeepsSane(plan, s, step, p);
        case AnswerNext(_) => CallKeepsSane(plan, s, step, p);
        case RetractNext(_, _) => CallKeepsSane(plan, s, step, p);
      }
    }
    forall p | 0 <= p < plan.count && s'.workers[p].Taken?
      ensures s'.workers[p].k < |plan.events|
    {
      assert Sane(plan, s', p) && s'.workers[p].k in InHand(s'.workers[p]);
    }
  }

  lemma {:induction false} ExecInv(plan: Plan, s: State, steps: seq<Step>)
    requires Orderly(plan, s) && Exec(plan, s, steps).Some?
    ensures Orderly(plan, Exec(plan, s, steps).value)
    decreases |steps|
  {
    if steps != [] {
      NextKeepsInv(plan, s, steps[0]);
      ExecInv(plan, Next(plan, s, steps[0]), steps[1..]);
    }
  }

  /** The invariant holds in every reachable state. */
  lemma ReachableInv(plan: Plan, s: State)
    requires Reachable(plan, s)
    ensures Orderly(plan, s)
  {
    var steps :| Exec(plan, Init(plan), steps) == Some(s);
    forall p | 0 <= p < plan.count
      ensures Sane(plan, Init(plan), p)
    {
    }
    ExecInv(plan, Init(plan), steps);
  }

  /** No event is sent on a closed queue. */
  lemma NoSendOnClosed(plan: Plan, s: State)
    requires Reachable(plan, s)
    ensures Shape(plan, s)
    ensures Enabled(plan, s, Enqueue) || Enabled(plan, s, HandOver) ==> !s.closed[plan.PartitionOf(s.next)]
  {
    ReachableInv(plan, s);
    if s.next < |plan.events| {
      assert Sane(plan, s, plan.PartitionOf(s.next));
    }
  }

  lemma HandledMine(plan: Plan, s: State, p: nat)
    requires Sane(plan, s, p)
    ensures Mine(plan, s.handled[p], p)
  {
    ArrivedExactly(plan, s.next, p);
    forall k <- s.handled[p]
      ensures k in Arrived(plan, s.next, p)
    {
    }
  }

  lemma HandledAbout(plan: Plan, s: State, id: MsgId)
    requires Sane(plan, s, plan.partition(id))
    ensures About(plan, s.handled[plan.partition(id)], id) <= ArrivedAbout(plan, s.next, id)
  {
    var p := plan.partition(id);
    var rest := InHand(s.workers[p]) + s.queues[p];
    assert s.handled[p] + rest == Arrived(plan, s.next, p);
    AboutArrived(plan, s.next, id);
    AboutConcat(plan, s.handled[p], rest, id);
  }

  /**
   Each worker handles only events of its own queue, and of the events about one message it has handled the first
   ones that arrived, in the order of their arrival.
   */
  lemma PerMessageOrder(plan: Plan, s: State, id: MsgId)
    requires Reachable(plan, s)
    ensures |s.handled| == plan.count && s.next <= |plan.events|
    ensures forall p | 0 <= p < plan.count :: Mine(plan, s.handled[p], p)
    ensures About(plan, s.handled[plan.partition(id)], id) <= ArrivedAbout(plan, s.next, id)
  {
    ReachableInv(plan, s);
    forall p | 0 <= p < plan.count
      ensures Mine(plan, s.handled[p], p)
    {
      HandledMine(plan, s, p);
    }
    HandledAbout(plan, s, id);
  }

  /** When the main loop has returned, every event of the stream was handled, once, by the worker of its queue. */
  lemma EachHandledOnce(plan: Plan, s: State)
    requires Reachable(plan, s) && s.main.Returned?
    ensures |s.handled| == plan.count
    ensures forall p | 0 <= p < plan.count :: s.handled[p] == Arrived(plan, |plan.events|, p)
    ensures forall p | 0 <= p < plan.count :: Increasing(s.handled[p])
    ensures forall p: nat, k: nat | p < plan.count && k < |plan.events| ::
      k in s.handled[p] <==> plan.PartitionOf(k) == p
  {
    ReachableInv(plan, s);
    forall p: nat | p < plan.count
      ensures s.handled[p] == Arrived(plan, |plan.events|, p) && Increasing(s.handled[p])
      ensures forall k: nat | k < |plan.events| :: k in s.handled[p] <==> plan.PartitionOf(k) == p
    {
      assert Sane(plan, s, p);
      ArrivedExactly(plan, |plan.events|, p);
      ArrivedIncreasing(plan, |plan.events|, p);
    }
  }

  // ---- Liveness ----

  /** Every queue is empty and every worker waits for an event. */
  predicate Drained(s: State) {
    && (forall p | 0 <= p < |s.queues| :: s.queues[p] == [])
    && (forall p | 0 <= p < |s.workers| :: s.workers[p].Idle?)
  }

  /** The main loop is done: it has returned, or it has aborted and the workers have nothing left to do. */
  predicate Over(s: State) {
    s.main.Returned? || (s.main.Aborted? && Drained(s))
  }

  /** Until then some step can be taken, without an abort. */
  lemma Progresses(plan: Plan, s: State) returns (step: Step)
    requires Orderly(plan, s) && !Over(s)
    ensures Enabled(plan, s, step) && !step.Abort?
  {
    if p :| 0 <= p < plan.count && s.workers[p].Taken? {
      return Begin(p);
    }
    if p :| 0 <= p < plan.count && s.workers[p].Working? {
      var job := s.workers[p].job;
      if Answering(job) {
        return AnswerNext(p);
      }
      if a :| a in job.stale {
        return RetractNext(p, a);
      }
      return Store(p);
    }
    if p :| 0 <= p < plan.count && s.workers[p].Idle? && s.queues[p] != [] {
      return Take(p);
    }
    match s.main {
      case Aborted =>
        AbortedDrained(plan, s);
        assert false;
      case Running =>
        if s.next == |plan.events| {
          return Goodbye;
        }
        var p := plan.PartitionOf(s.next);
        assert Sane(plan, s, p);
        return HandOver;
      case Closing(_) =>
        return Close;
      case Waiting(i) =>
        assert Sane(plan, s, i);
        if s.workers[i].Idle? {
          return Stop(i);
        }
        return Join;
    }
  }

  /** After an abort no queue is closed, so a worker without an event waits. */
  lemma AbortedDrained(plan: Plan, s: State)
    requires Orderly(plan, s) && s.main.Aborted?
    requires forall p | 0 <= p < plan.count :: !s.workers[p].Taken? && !s.workers[p].Working?
    requires forall p | 0 <= p < plan.count && s.workers[p].Idle? :: s.queues[p] == []
    ensures Drained(s)
  {
    forall p | 0 <= p < plan.count
      ensures s.workers[p].Idle? && s.queues[p] == []
    {
      assert Sane(plan, s, p);
    }
  }

  /** If the main loop aborts, the workers end up with every event it had routed handled once, and no queue closed. */
  lemma AbortLeavesAll(plan: Plan, s: State)
    requires Reachable(plan, s) && s.main.Aborted?
    ensures Shape(plan, s)
    ensures (exists step :: Enabled(plan, s, step)) <==> !Drained(s)
    ensures Drained(s) ==> forall p | 0 <= p < plan.count :: s.handled[p] == Arrived(plan, s.next, p) && !s.closed[p]
  {
    ReachableInv(plan, s);
    if !Drained(s) {
      var step := Progresses(plan, s);
    } else {
      forall p | 0 <= p < plan.count
        ensures s.handled[p] == Arrived(plan, s.next, p) && !s.closed[p] && s.queues[p] == [] && s.workers[p].Idle?
      {
        assert Sane(plan, s, p);
      }
    }
  }

  function Sum(s: seq<nat>): nat {
    if s == [] then 0 else Sum(s[..|s| - 1]) + s[|s| - 1]
  }

  lemma {:induction false} SumUpdate(s: seq<nat>, i: nat, v: nat)
    requires i < |s|
    ensures Sum(s[i := v]) + s[i] == Sum(s) + v
  {
    var last := |s| - 1;
    if i == last {
      assert s[i := v][..last] == s[..last];
    } else {
      SumUpdate(s[..last], i, v);
      assert s[i := v][..last] == s[..last][i := v];
    }
  }

  function MainRank(plan: Plan, s: State): int {
    match s.main
    case Running => |plan.events| - s.next + 2 * plan.count + 2
    case Closing(i) => 2 * plan.count + 1 - i
    case Waiting(i) => plan.count - i
    case Returned => 0
    case Aborted => 0
  }

  function Stage(w: Worker): nat {
    match w
    case Taken(_) => 3
    case Working(_, _) => 2
    case Idle => 1
    case Stopped => 0
    case Joined => 0
  }

  function Work(w: Worker): nat {
    if w.Working? && w.job.at <= |w.job.outs| then Effort(w.job) else 0
  }

  /** What is left to do of a job. */
  function Effort(job: Job): nat
    requires job.at <= |job.outs|
  {
    |job.outs| - job.at + |job.stale|
  }

  function QueueSizes(s: State): seq<nat> {
    seq(|s.queues|, i requires 0 <= i < |s.queues| => |s.queues[i]|)
  }

  function Stages(s: State): seq<nat> {
    seq(|s.workers|, i requires 0 <= i < |s.workers| => Stage(s.workers[i]))
  }

  function Works(s: State): seq<nat> {
    seq(|s.workers|, i requires 0 <= i < |s.workers| => Work(s.workers[i]))
  }

  /** What remains: for the main loop, in the queues, of the workers' stages, and of their handlers. */
  function Rank(plan: Plan, s: State): (int, nat, nat, nat) {
    (MainRank(plan, s), Sum(QueueSizes(s)), Sum(Stages(s)), Sum(Works(s)))
  }

  predicate Below(r: (int, nat, nat, nat), t: (int, nat, nat, nat)) {
    || 0 <= r.0 < t.0
    || (r.0 == t.0 && r.1 < t.1)
    || (r.0 == t.0 && r.1 == t.1 && r.2 < t.2)
    || (r.0 == t.0 && r.1 == t.1 && r.2 == t.2 && r.3 < t.3)
  }

  lemma WorkerRank(s: State, s': State, p: nat)
    requires p < |s.workers| == |s'.workers| && s'.workers == s.workers[p := s'.workers[p]]
    ensures Sum(Stages(s')) + Stage(s.workers[p]) == Sum(Stages(s)) + Stage(s'.workers[p])
    ensures Sum(Works(s')) + Work(s.workers[p]) == Sum(Works(s)) + Work(s'.workers[p])
  {
    SumUpdate(Stages(s), p, Stage(s'.workers[p]));
    SumUpdate(Works(s), p, Work(s'.workers[p]));
    assert Stages(s') == Stages(s)[p := Stage(s'.workers[p])];
    assert Works(s') == Works(s)[p := Work(s'.workers[p])];
  }

  lemma QueueRank(s: State, s': State, p: nat)
    requires p < |s.queues| && s.queues[p] != [] && s'.queues == s.queues[p := s.queues[p][1..]]
    ensures Sum(QueueSizes(s')) < Sum(QueueSizes(s))
  {
    SumUpdate(QueueSizes(s), p, |s.queues[p]| - 1);
    assert QueueSizes(s') == QueueSizes(s)[p := |s.queues[p]| - 1];
  }

  /** A step of the main loop. */
  lemma MainLowersRank(plan: Plan, s: State, step: Step)
    requires Orderly(plan, s) && Enabled(plan, s, step)
    requires step.Enqueue? || step.HandOver? || step.Goodbye? || step.Abort? || step.Close? || step.Join?
    ensures 0 <= MainRank(plan, Next(plan, s, step)) < MainRank(plan, s)
  {
  }

  /** A step of a worker between two events. */
  lemma StageLowersRank(plan: Plan, s: State, step: Step)
    requires Orderly(plan, s) && Enabled(plan, s, step) && (step.Begin? || step.Store? || step.Stop?)
    ensures Sum(Stages(Next(plan, s, step))) < Sum(Stages(s))
  {
    WorkerRank(s, Next(plan, s, step), step.p);
  }

  lemma AnswerLessEffort(p: Progress)
    requires Answering(p.job)
    ensures AnswerOne(p).job.at <= |AnswerOne(p).job.outs| && Effort(AnswerOne(p).job) < Effort(p.job)
  {
  }

  lemma RetractLessEffort(p: Progress, a: string)
    requires p.job.at <= |p.job.outs| && a in p.job.stale
    ensures Effort(RetractStep(p, a).job) < Effort(p.job)
  {
  }

  lemma CallLessWork(plan: Plan, s: State, step: Step)
    requires Orderly(plan, s) && Enabled(plan, s, step) && (step.AnswerNext? || step.RetractNext?)
    ensures var w, w' := s.workers[step.p], Next(plan, s, step).workers[step.p];
      Stage(w') == Stage(w) && Work(w') < Work(w) && Next(plan, s, step).workers == s.workers[step.p := w']
  {
    assert Sane(plan, s, step.p);
    var p := Progress(s.workers[step.p].job, s.world.posts);
    if step.AnswerNext? {
      AnswerLessEffort(p);
    } else {
      RetractLessEffort(p, step.action);
    }
  }

  /** A driver call of a handler. */
  lemma CallLowersRank(plan: Plan, s: State, step: Step)
    requires Orderly(plan, s) && Enabled(plan, s, step) && (step.AnswerNext? || step.RetractNext?)
    ensures Sum(Stages(Next(plan, s, step))) == Sum(Stages(s))
    ensures Sum(Works(Next(plan, s, step))) < Sum(Works(s))
  {
    CallLessWork(plan, s, step);
    WorkerRank(s, Next(plan, s, step), step.p);
  }

  /** Every step brings the run closer to its end. */
  lemma StepLowersRank(plan: Plan, s: State, step: Step)
    requires Orderly(plan, s) && Enabled(plan, s, step)
    ensures Below(Rank(plan, Next(plan, s, step)), Rank(plan, s))
  {
    match step {
      case Take(p) => QueueRank(s, Next(plan, s, step), p);
      case Begin(_) => StageLowersRank(plan, s, step);
      case Store(_) => StageLowersRank(plan, s, step);
      case Stop(_) => StageLowersRank(plan, s, step);
      case AnswerNext(_) => CallLowersRank(plan, s, step);
      case RetractNext(_, _) => CallLowersRank(plan, s, step);
      case _ => MainLowersRank(plan, s, step);
    }
  }

  lemma {:induction false} CanReturn(plan: Plan, s: State) returns (more: seq<Step>)
    requires Orderly(plan, s) && !s.main.Aborted?
    ensures Exec(plan, s, more).Some? && Exec(plan, s, more).value.main.Returned?
    decreases Rank(plan, s).0, Rank(plan, s).1, Rank(plan, s).2, Rank(plan, s).3
  {
    more := [];
    if !s.main.Returned? {
      var step := Progresses(plan, s);
      StepLowersRank(plan, s, step);
      NextKeepsInv(plan, s, step);
      var rest := CanReturn(plan, Next(plan, s, step));
      more := [step] + rest;
      assert more[1..] == rest;
    }
  }

  /** n steps of an infinite sequence, from position i on. */
  function Segment(steps: nat -> Step, i: nat, n: nat): seq<Step>
    decreases n
  {
    if n == 0 then [] else [steps(i)] + Segment(steps, i + 1, n - 1)
  }

  /** Every infinite sequence of steps has a finite part, at its start, that cannot be taken. */
  lemma {:induction false} EndsWithin(plan: Plan, s: State, steps: nat -> Step, i: nat) returns (n: nat)
    requires Orderly(plan, s)
    ensures Exec(plan, s, Segment(steps, i, n)).None?
    decreases Rank(plan, s).0, Rank(plan, s).1, Rank(plan, s).2, Rank(plan, s).3
  {
    n := 0;
    if Enabled(plan, s, steps(i)) {
      StepLowersRank(plan, s, steps(i));
      NextKeepsInv(plan, s, steps(i));
      n := EndsWithin(plan, Next(plan, s, steps(i)), steps, i + 1);
    }
    n := n + 1;
    assert Segment(steps, i, n)[1..] == Segment(steps, i + 1, n - 1);
  }

  /** The schedule cannot be followed for ever. */
  ghost predicate Ends(plan: Plan, s: State, steps: nat -> Step) {
    exists n :: Exec(plan, s, Segment(steps, 0, n)).None?
  }

  /**
   In every reachable state: some step can be taken until the main loop has returned, or has aborted and the workers
   are done; no schedule goes on for ever; and unless it has aborted, some schedule ends with its return.
   */
  lemma Graceful(plan: Plan, s: State)
    requires Reachable(plan, s)
    ensures Shape(plan, s)
    ensures Over(s) || exists step :: Enabled(plan, s, step)
    ensures forall steps: nat -> Step :: Ends(plan, s, steps)
    ensures s.main.Aborted? || exists more :: Exec(plan, s, more).Some? && Exec(plan, s, more).value.main.Returned?
  {
    ReachableInv(plan, s);
    if !Over(s) {
      var step := Progresses(plan, s);
    }
    forall steps: nat -> Step
      ensures Ends(plan, s, steps)
    {
      var n := EndsWithin(plan, s, steps, 0);
    }
    if !s.main.Aborted? {
      var more := CanReturn(plan, s);
    }
  }
}
