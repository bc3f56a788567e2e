/** Two greetings in different queues: a run that meets what the results on concurrent runs ask for. */
module Witnesses {
  import opened Text
  import opened Messages
  import opened Actions
  import opened Reconcile
  import opened Runs
  import opened Dispatch
  import opened Confluence
  import opened EditChain
  import opened Agreement
  import opened Responses
  import opened Honesty
  import opened Counterexamples

  const FIRST_ID := MsgId("C1", "1")

  function AnswerTo(k: nat): Script {
    Posting(MsgId("C1", if k == 0 then "8" else "9"))
  }

  function Greetings2(): Plan {
    TwoQueues();
    PlanFor(GreetingBot(), [Said("1", GREETING), Said("2", GREETING)], AnswerTo, FirstApart, 2, 0)
  }

  function Greeting(): OutgoingMessage {
    OutgoingMessage(ActionId("greeter", HEAR_ACTION_TYPE, 0), "C1", "hello", [])
  }

  lemma TwoGreetings()
    ensures var plan := Greetings2();
      && plan.Valid() && plan.count == 2 && |plan.events| == 2 && plan.PartitionOf(0) == 0 && plan.PartitionOf(1) == 1
      && plan.bot == GreetingBot() && (forall k :: plan.scripts(k) == AnswerTo(k))
      && plan.events[0] == Said("1", GREETING) && plan.events[1] == Said("2", GREETING)
  {
    TwoQueues();
    var events := [Said("1", GREETING), Said("2", GREETING)];
    PlanForIsValid(GreetingBot(), events, AnswerTo, FirstApart, 2, 0);
    assert ("C1" + "2")[2..] == "2" && ("C1" + "1")[2..] == "1" && "1" != "2";
    assert FirstApart("C1" + "1") == 0 && FirstApart("C1" + "2") == 1;
  }

  /** What it takes to handle one greeting. */
  lemma GreetingHandled(w: World, timestamp: string, k: nat)
    ensures var e, script := Said(timestamp, GREETING), AnswerTo(k);
      && KindOf(e) == New && e.OwnId() == MsgId("C1", timestamp) && Routed(GreetingBot(), e) == [Greeting()]
      && NewIds(GreetingBot(), e, script) == {script.sends(0).id}
      && Handle(GreetingBot(), w, e, script).posts == w.posts[script.sends(0).id := Post("hello", true, 0)]
      && (script.sends(0).id !in w.posts ==> Honest(GreetingBot(), w, e, script))
      && Reliable([Greeting()], script)
  {
    var e, script := Said(timestamp, GREETING), AnswerTo(k);
    GreetingRouted(e);
    SingleSend(w, e.OwnId(), Greeting(), script.sends(0).id);
    var p := Progress(Job(e.OwnId(), [Greeting()], script, 0, map[], map[], false), w.posts);
    assert !Answering(AnswerOne(p).job);
    assert IdsAt(script, 0) == {script.sends(0).id};
    forall id <- IdsAt(script, 0)
      ensures id in NewIds(GreetingBot(), e, script)
    {
    }
  }

  lemma PairAligned(plan: Plan)
    requires |plan.events| == 2 && Touches(plan.events[0]) !! Touches(plan.events[1])
    requires NewIds(plan.bot, plan.events[0], plan.scripts(0)) !! NewIds(plan.bot, plan.events[1], plan.scripts(1))
    ensures Aligned(plan)
  {
  }

  lemma PairHonest(plan: Plan)
    requires |plan.events| == 2
    requires var w0, e := World(map[], map[]), plan.events[0];
      && Honest(plan.bot, w0, e, plan.scripts(0))
      && Honest(plan.bot, Handle(plan.bot, w0, e, plan.scripts(0)), plan.events[1], plan.scripts(1))
    ensures IsHonest(plan)
  {
    var w0, first := World(map[], map[]), StepsOf(plan, 1);
    assert StepsOf(plan, 0) == [] && first == [] + [Handled(plan.events[0], plan.scripts(0))] && first[..0] == [];
    assert StepsOf(plan, 2) == first + [Handled(plan.events[1], plan.scripts(1))];
    assert StepsOf(plan, 2)[..1] == first;
    assert After(plan.bot, w0, []) == w0 && HonestRun(plan.bot, w0, first);
  }

  lemma GreetingsApart()
    ensures Aligned(Greetings2()) && Aligned(Beside(Greetings2(), {FIRST_ID})) && IsHonest(Greetings2())
  {
    var plan, w0 := Greetings2(), World(map[], map[]);
    TwoGreetings();
    assert "1" != "2" && "8" != "9";
    GreetingHandled(w0, "1", 0);
    GreetingHandled(Handle(plan.bot, w0, plan.events[0], plan.scripts(0)), "2", 1);
    assert Touches(plan.events[0]) == {MsgId("C1", "1")} && Touches(plan.events[1]) == {MsgId("C1", "2")};
    PairAligned(plan);
    PairAligned(Beside(plan, {FIRST_ID}));
    PairHonest(plan);
  }

  lemma MessageIsVersion(plan: Plan, k: nat, key: MsgId)
    requires k < |plan.events| && KindOf(plan.events[k]) == New && plan.events[k].OwnId() == key
    requires Reliable(Routed(plan.bot, plan.events[k]), plan.scripts(k))
    requires Honest(plan.bot, World(map[], map[]), plan.events[k], plan.scripts(k))
    ensures AreVersions(plan, key, VersionsAt(plan, [k]))
  {
    var versions := [Handled(plan.events[k], plan.scripts(k))];
    assert [k][..0] == [] && VersionsAt(plan, [k]) == versions && versions[..0] == [];
    assert After(plan.bot, World(map[], map[]), []) == World(map[], map[]);
  }

  lemma FirstPosition(plan: Plan, key: MsgId)
    requires |plan.events| == 2 && plan.events[0].OriginalId() == key && plan.events[1].OriginalId() != key
    ensures Positions(plan, {key}) == [0]
  {
    var view := Beside(plan, {key});
    assert view.PartitionOf(0) == 0 && view.PartitionOf(1) == 1;
    assert Arrived(view, 1, 0) == [0] && Arrived(view, 2, 0) == [0];
  }

  lemma FirstIsVersion()
    ensures var plan := Greetings2(); AreVersions(plan, FIRST_ID, VersionsAt(plan, Positions(plan, {FIRST_ID})))
  {
    var plan := Greetings2();
    TwoGreetings();
    GreetingHandled(World(map[], map[]), "1", 0);
    MessageIsVersion(plan, 0, FIRST_ID);
    assert "1" != "2";
    FirstPosition(plan, FIRST_ID);
  }

  lemma SomeRunReturns(plan: Plan) returns (s: State)
    requires plan.Valid()
    ensures Reachable(plan, s) && s.main.Returned?
  {
    assert Exec(plan, Init(plan), []) == Some(Init(plan));
    ReachableInv(plan, Init(plan));
    var more := CanReturn(plan, Init(plan));
    s := Exec(plan, Init(plan), more).value;
  }

  /** Some run of the two greetings meets all conditions of the results on runs of workers. */
  lemma ConditionsAreMet() returns (s: State)
    ensures var plan := Greetings2();
      && Aligned(plan) && IsHonest(plan) && KeysApart(plan) && DistinctNames(plan.bot)
      && Reachable(plan, s) && HonestlyReachable(plan, s) && s.main.Returned?
      && Aligned(Beside(plan, {FIRST_ID}))
      && AreVersions(plan, FIRST_ID, VersionsAt(plan, Positions(plan, {FIRST_ID})))
  {
    TwoGreetings();
    GreetingsApart();
    FirstIsVersion();
    s := SomeRunReturns(Greetings2());
    AlignedRunIsHonest(Greetings2(), s);
  }
}
