/** Three runs in which the bot does not do what its documentation says. */
module Counterexamples {
  import opened Text
  import opened Messages
  import opened Answers
  import opened Actions
  import opened Reconcile
  import opened Dispatch
  import opened Routing
  import opened Overtaking
  import opened Confluence
  import opened Bystanders
  import opened Deletions
  import opened DoubleDeletes

  // ---- An edited message the bot loses track of ----

  const GREETING := "hi"

  /** A bot with one hear action, which answers "hi" with "hello". */
  function GreetingBot(): Bot {
    var greet := ActionDefinition(
      (m: IncomingMessage) => m.normalizedText == GREETING,
      (m: IncomingMessage) => Some(Answer("hello", [])));
    Bot("U0", "B0", "<@U0> ", true, [Plugin("greeter", false, [], [greet])],
        (m: IncomingMessage) => Answer("?", []), ThreadingConfig(false, false), (a, b) => Some(0), 60)
  }

  function Said(timestamp: string, text: string): MessageEvent {
    MessageEvent("message", "", 0, "C1", timestamp, "", "U1", "", text, "", None)
  }

  function Edited(timestamp: string, original: string, text: string): MessageEvent {
    MessageEvent("message", "message_changed", 0, "C1", timestamp, "", "", "", "", "",
                 Some(SubMessage(original, "U1", text)))
  }

  function Posting(id: MsgId): Script {
    Script(i => Posted(id), i => InPlace, r => true)
  }

  lemma GreetingRouted(e: MessageEvent)
    requires var m := NormalizeIncoming(e); m.channel == "C1" && m.user == "U1" && m.botId == ""
    ensures var m := NormalizeIncoming(e);
      m.text == "x" ==> Routed(GreetingBot(), e) == []
    ensures var m := NormalizeIncoming(e);
      m.text == GREETING && m.threadTimestamp == "" ==>
        Routed(GreetingBot(), e) == [OutgoingMessage(ActionId("greeter", HEAR_ACTION_TYPE, 0), "C1", "hello", [])]
  {
    var bot, m := GreetingBot(), NormalizeIncoming(e);
    var p := bot.plugins[0];
    assert !bot.IsBot(m);
    if m.text == "x" || m.text == GREETING {
      assert |bot.cmdPrefix| > |m.text|;
      assert "C1"[0] != "D"[0];
      assert !bot.IsCommand(m);
      var inMsg := Incoming(bot, m);
      assert Triggered(p.name, HEAR_ACTION_TYPE, p.hearActions, 0, inMsg, Send) == [];
      assert Triggered(p.name, HEAR_ACTION_TYPE, p.hearActions, 1, inMsg, Send)
        == Attempt(p.name, HEAR_ACTION_TYPE, 0, p.hearActions[0], inMsg, Send);
      assert FirstAnswers(bot, 0, m) == [];
      var none: seq<AnswerOption> := [];
      assert none + none + none == none;
      assert FirstAnswers(bot, 1, m) == PluginAnswers(bot, p, m);
    }
  }

  /** One send that succeeds: what a job with a single outgoing message does. */
  lemma SingleSend(w: World, key: MsgId, o: OutgoingMessage, id: MsgId)
    requires id.IsModifiable()
    ensures Complete(Job(key, [o], Posting(id), 0, map[], map[], false), w)
      == World(w.cache[key := map[o.pluginActionId := id]], w.posts[id := Post(o.text, true, 0)])
  {
    var p := Progress(Job(key, [o], Posting(id), 0, map[], map[], false), w.posts);
    assert !Answering(AnswerOne(p).job);
    assert AnswerAll(p) == AnswerOne(p);
    RetractNone(AnswerOne(p).posts, Posting(id));
  }

  /** An edit to "hi" of a message that is not in the cache. */
  lemma EditNotCached(w: World, timestamp: string, id: MsgId)
    requires MsgId("C1", "1") !in w.cache && id.IsModifiable()
    ensures Handle(GreetingBot(), w, Edited(timestamp, "1", GREETING), Posting(id))
      == World(w.cache[MsgId("C1", timestamp) := map[ActionId("greeter", HEAR_ACTION_TYPE, 0) := id]],
               w.posts[id := Post("hello", true, 0)])
  {
    var e := Edited(timestamp, "1", GREETING);
    GreetingRouted(e);
    var o := OutgoingMessage(ActionId("greeter", HEAR_ACTION_TYPE, 0), "C1", "hello", []);
    SingleSend(w, MsgId("C1", timestamp), o, id);
    assert e.OriginalId() == MsgId("C1", "1") && e.OwnId() == MsgId("C1", timestamp);
    assert KindOf(e) == Changed;
    assert Start(GreetingBot(), w.cache, e, Posting(id))
      == Some(Job(e.OwnId(), [o], Posting(id), 0, map[], map[], false));
  }

  lemma SaidNothing(w: World, id: MsgId)
    ensures Handle(GreetingBot(), w, Said("1", "x"), Posting(id)) == w
  {
    GreetingRouted(Said("1", "x"));
    RetractNone(w.posts, Posting(id));
  }

  /**
   The first version of a message triggers nothing; it is edited to "hi", then edited again without a change of
   what it triggers. The answer to the first edit is filed under that edit's own timestamp, so the second edit does
   not find it: the channel ends with two answers of the same action to one message.
   */
  lemma EditAfterSilenceAnswersTwice(first: MsgId, second: MsgId)
    requires first.IsModifiable() && second.IsModifiable() && first != second
    ensures var bot := GreetingBot();
      var w1 := Handle(bot, World(map[], map[]), Said("1", "x"), Posting(first));
      var w2 := Handle(bot, w1, Edited("2", "1", GREETING), Posting(first));
      var w3 := Handle(bot, w2, Edited("3", "1", GREETING), Posting(second));
      w3.posts == map[first := Post("hello", true, 0), second := Post("hello", true, 0)]
  {
    SaidNothing(World(map[], map[]), first);
    assert "1" != "2" && "1" != "3";
    EditNotCached(World(map[], map[]), "2", first);
    EditNotCached(Handle(GreetingBot(), World(map[], map[]), Edited("2", "1", GREETING), Posting(first)), "3", second);
  }

  // ---- A deletion that overtakes its message ----

  /** A message that triggers one answer, and its deletion, in different queues. */
  ghost predicate SplitDeletion(plan: Plan, id: MsgId) {
    && plan.Valid() && plan.count == 2 && |plan.events| == 2
    && var message, deletion := plan.events[0], plan.events[1];
       && KindOf(message) == New && |Routed(plan.bot, message)| == 1
       && plan.scripts(0).sends(0) == Posted(id) && id.IsModifiable()
       && KindOf(deletion) == Deleted && deletion.DeletedId() == message.OwnId()
       && plan.scripts(1).deleted(id)
       && plan.PartitionOf(0) == 0 && plan.PartitionOf(1) == 1
  }

  /** A deletion of the first message. */
  function Removed(timestamp: string): MessageEvent {
    MessageEvent("message", "message_deleted", 0, "C1", timestamp, "", "", "", "", "1", None)
  }

  /** A checksum that sends the first message to one of two queues and everything else to the other. */
  function FirstApart(bytes: string): bv32 {
    if bytes == "C1" + "1" then 0 else 1
  }

  lemma TwoQueues()
    ensures 0 < 2 <= MAX_INT && IsPowerOfTwo(2)
  {
    assert And(2, 1) == 2 * And(1, 0);
    assert And(1, 0) == 2 * And(0, 0);
  }

  /** The greeting bot with two queues, and events of one channel. */
  function Greetings(events: seq<MessageEvent>): Plan {
    TwoQueues();
    PlanFor(GreetingBot(), events, k => Posting(MsgId("C1", "9")), FirstApart, 2, 0)
  }

  lemma GreetingsApart(events: seq<MessageEvent>, k: nat)
    requires k < |events| && events[k].channel == "C1"
    ensures var plan := Greetings(events);
      && plan.Valid() && plan.count == 2
      && plan.PartitionOf(k) == if events[k].OriginalId().timestamp == "1" then 0 else 1
  {
    TwoQueues();
    PlanForIsValid(GreetingBot(), events, k => Posting(MsgId("C1", "9")), FirstApart, 2, 0);
    var t := events[k].OriginalId().timestamp;
    assert ("C1" + t)[2..] == t && ("C1" + "1")[2..] == "1";
  }

  lemma GreetingIsSplit()
    ensures SplitDeletion(Greetings([Said("1", GREETING), Removed("2")]), MsgId("C1", "9"))
  {
    var events := [Said("1", GREETING), Removed("2")];
    GreetingRouted(events[0]);
    assert "1" != "2";
    GreetingsApart(events, 0);
    GreetingsApart(events, 1);
  }

  /** Taken one by one, the message is answered and the deletion removes the answer. */
  lemma DeletionInOrder(plan: Plan, id: MsgId)
    requires SplitDeletion(plan, id)
    ensures id in Sequential(plan, 2).posts && !Sequential(plan, 2).posts[id].live
  {
    var message, deletion := plan.events[0], plan.events[1];
    var outs := Routed(plan.bot, message);
    var key := message.OwnId();
    var w0 := World(map[], map[]);
    var w1 := Handle(plan.bot, w0, message, plan.scripts(0));
    var p := Progress(Job(key, outs, plan.scripts(0), 0, map[], map[], false), w0.posts);
    assert AnswerAll(p) == AnswerOne(p);
    RetractNone(AnswerOne(p).posts, plan.scripts(0));
    assert w1.cache[key] == map[outs[0].pluginActionId := id];
    assert Sequential(plan, 0) == w0;
    assert Sequential(plan, 1) == w1;
    Runs.UsesOfSound(w1.cache[key], w1.posts, id);
    assert w1.cache[key][outs[0].pluginActionId] == id;
    assert Sequential(plan, 2) == Handle(plan.bot, w1, deletion, plan.scripts(1));
  }

  lemma PairIsWhole(plan: Plan)
    requires plan.Valid() && |plan.events| == 2
    ensures IsPrivate(plan, Members([0, 1]))
  {
    var order := [0, 1];
    assert order[0] in Members(order) && order[1] in Members(order);
    WholeIsPrivate(plan, Members(order));
  }

  lemma SplitIsDeletion(plan: Plan, id: MsgId)
    requires SplitDeletion(plan, id)
    ensures IsDeletion(plan, [0, 1]) && IsAnswered(plan, 0, 0) && CanOvertake(plan, 0, 1)
  {
    PairIsWhole(plan);
    PairIsDeletion(plan, 0, 1);
  }

  lemma HandledApart(plan: Plan, s: State)
    requires plan.count == 2 && |plan.events| == 2 && plan.PartitionOf(0) == 0 && plan.PartitionOf(1) == 1
    requires Reachable(plan, s) && s.main.Returned?
    ensures s.handled == [[0], [1]]
  {
    EachHandledOnce(plan, s);
    assert Arrived(plan, 0, 0) == [] && Arrived(plan, 1, 0) == [0] && Arrived(plan, 2, 0) == [0];
    assert Arrived(plan, 0, 1) == [] && Arrived(plan, 1, 1) == [] && Arrived(plan, 2, 1) == [1];
    assert s.handled[0] == [0] && s.handled[1] == [1];
  }

  /** With two queues there is a complete run of both events that leaves the answer in the channel for good. */
  lemma DeletionOvertakes(plan: Plan, id: MsgId) returns (s: State)
    requires SplitDeletion(plan, id)
    ensures Reachable(plan, s) && s.main.Returned? && s.handled == [[0], [1]]
    ensures id in s.world.posts && s.world.posts[id].live
  {
    SplitIsDeletion(plan, id);
    s := AnswerIsLeft(plan, [0, 1], 0);
    HandledApart(plan, s);
  }

  // ---- Two handlers of one entry ----

  /** A greeting, an edit that takes it back, and its deletion: the router separates the deletion from the others. */
  function GreetingTakenBack(): Plan {
    Greetings([Said("1", GREETING), Edited("2", "1", "x"), Removed("3")])
  }

  const ANSWER_ID := MsgId("C1", "9")

  lemma TakenBackIsSeparated()
    ensures var plan := GreetingTakenBack();
      && plan.Valid() && plan.count == 2 && |plan.events| == 3
      && plan.PartitionOf(0) == 0 && plan.PartitionOf(1) == 0 && plan.PartitionOf(2) == 1
  {
    var events := [Said("1", GREETING), Edited("2", "1", "x"), Removed("3")];
    GreetingsApart(events, 0);
    GreetingsApart(events, 1);
    GreetingsApart(events, 2);
    assert "3" != "1";
  }

  lemma TakenBackRouted()
    ensures var plan := GreetingTakenBack();
      && |Routed(plan.bot, plan.events[0])| == 1 && Routed(plan.bot, plan.events[1]) == []
      && forall k :: plan.scripts(k) == Posting(ANSWER_ID)
  {
    var plan := GreetingTakenBack();
    GreetingRouted(plan.events[0]);
    GreetingRouted(plan.events[1]);
  }

  lemma TakenBackIsAbout()
    ensures var plan := GreetingTakenBack();
      AreAbout(plan, 0, 1, 2) && GetOwnIds(plan, 0, 1) && IsAnswered(plan, 0, 0) && !Updates(plan, 0, 1, 0)
  {
    TakenBackRouted();
  }

  lemma TakenBackIsPrivate()
    ensures IsPrivate(GreetingTakenBack(), Members([0, 1, 2]))
  {
    var order := [0, 1, 2];
    TakenBackIsSeparated();
    assert order[0] in Members(order) && order[1] in Members(order) && order[2] in Members(order);
    WholeIsPrivate(GreetingTakenBack(), Members(order));
  }

  lemma TakenBackIsDeletion()
    ensures IsDeletion(GreetingTakenBack(), [0, 1, 2])
  {
    TakenBackIsSeparated();
    TakenBackIsPrivate();
  }

  /** Without the separation of a message's events by queue a response can be deleted twice. */
  lemma DeletedTwice() returns (s: State)
    ensures Reachable(GreetingTakenBack(), s)
    ensures ANSWER_ID in s.world.posts && s.world.posts[ANSWER_ID].deletes == 2
  {
    var plan := GreetingTakenBack();
    TakenBackIsSeparated();
    TakenBackRouted();
    TakenBackIsAbout();
    TakenBackIsDeletion();
    s := BothDelete(plan, 0, 1, 2, 0);
  }
}

/** Inputs for which the stores and the triggers do not do what they are for. */
module StoreCounterexamples {
  import opened Text
  import opened SiloMaps
  import Karma
  import LevelDb
  import Splitting
  import opened Triggers

  /** A global trigger, a channel's trigger on the same text with an empty reaction, and the command to forget it. */
  function ForgetEmpty(channel: string): seq<Command> {
    [Register(GLOBAL_SILO_NAME, STANDARD_TRIGGER_TYPE_ID, "x", "y"),
     Register(channel, STANDARD_TRIGGER_TYPE_ID, "x", ""),
     Forget(channel, STANDARD_TRIGGER_TYPE_ID, "x")]
  }

  lemma ForgetEmptyLog(channel: string, silo: string)
    requires channel != GLOBAL_SILO_NAME
    ensures var commands, t := ForgetEmpty(channel), STANDARD_TRIGGER_TYPE_ID;
      && InForce(commands[..2], silo, t, "x")
        == (if silo == GLOBAL_SILO_NAME then Some("y") else if silo == channel then Some("") else None)
      && InForce(commands, silo, t, "x") == (if silo == channel then Some("") else None)
  {
    var commands, t := ForgetEmpty(channel), STANDARD_TRIGGER_TYPE_ID;
    assert commands[..2][..1] == commands[..1] && commands[..1][..0] == [];
    assert InForce(commands[..1], silo, t, "x") == if silo == GLOBAL_SILO_NAME then Some("y") else None;
    assert InForce(commands[..1], channel, t, "x") == None;
    assert InForce(commands[..2], channel, t, "x") == Some("");
    assert commands[..|commands| - 1] == commands[..2];
  }

  /**
   The forget command deletes the global trigger, which every other channel sees, and leaves the channel's own in
   place.
   */
  lemma ForgetReachesOthers(channel: string, other: string)
    requires channel != GLOBAL_SILO_NAME && other != channel
    ensures var commands, t := ForgetEmpty(channel), STANDARD_TRIGGER_TYPE_ID;
      && Visible(ExecutedAll(commands[..2]), other, t, "x") == Some("y")
      && Visible(ExecutedAll(commands), other, t, "x") == None
      && Visible(ExecutedAll(commands), channel, t, "x") == Some("")
  {
    var commands, t := ForgetEmpty(channel), STANDARD_TRIGGER_TYPE_ID;
    forall silo <- [channel, other, GLOBAL_SILO_NAME]
      ensures Lookup(ExecutedAll(commands[..2]), silo, EncodeTrigger("x", t)) == InForce(commands[..2], silo, t, "x")
      ensures Lookup(ExecutedAll(commands), silo, EncodeTrigger("x", t)) == InForce(commands, silo, t, "x")
    {
      StoredInForce(commands[..2], silo, t, "x");
      StoredInForce(commands, silo, t, "x");
    }
    ForgetEmptyLog(channel, channel);
    ForgetEmptyLog(channel, other);
    ForgetEmptyLog(channel, GLOBAL_SILO_NAME);
  }

  /** Of two things the first cannot be deleted and the second can: success is reported, and the first stays. */
  lemma PartialResetReportsSuccess()
    ensures var before: map<string, string>, order, deletes := map["bugs" := "3", "tests" := "5"], ["bugs", "tests"],
        (thing: string) => thing == "tests";
      && Karma.Visits(order, before) && Karma.ReportsCleared(order, deletes)
      && Karma.Kept(before, deletes) == map["bugs" := "3"]
  {
    var order := ["bugs", "tests"];
    assert order[0] == "bugs" && order[1] == "tests" && |order[0]| != |order[1]|;
  }

  // The UTF-8 encoding of a silo named "C" and the character U+00DA.
  const ACCENTED_SILO: LevelDb.Bytes := [0x43, 0xC3, 0x9A]

  /** A silo with that character does not decode, and once it has an entry every global scan fails. */
  lemma AccentedSiloFails(key: LevelDb.Bytes, value: LevelDb.Bytes)
    ensures LevelDb.DecodeKey(LevelDb.EncodeKey(ACCENTED_SILO, key)).None?
    ensures LevelDb.GloballyScanned(map[LevelDb.EncodeKey(ACCENTED_SILO, key) := value]).None?
  {
    assert ACCENTED_SILO[1..3] == LevelDb.SILO_KEY_DELIMITER;
    assert Splitting.OccursAt(ACCENTED_SILO, LevelDb.SILO_KEY_DELIMITER, 1);
    LevelDb.DecodeEncode(ACCENTED_SILO, key);
  }

  // The UTF-8 encoding of "S" and the character U+00DA: the key of a standard trigger on that character.
  const ACCENTED_KEY: LevelDb.Bytes := [0x53, 0xC3, 0x9A]

  /** Once a trigger on that character is stored, every scan of its silo fails, and every global one. */
  lemma AccentedTriggerFails(db: LevelDb.Database, silo: LevelDb.Bytes)
    requires LevelDb.EncodeKey(silo, ACCENTED_KEY) in db
    ensures LevelDb.Scanned(db, silo).None?
    ensures LevelDb.GloballyScanned(db).None?
  {
    assert ACCENTED_KEY[1..3] == LevelDb.SILO_KEY_DELIMITER;
    assert Splitting.OccursAt(ACCENTED_KEY, LevelDb.SILO_KEY_DELIMITER, 1);
    LevelDb.DelimiterBreaksSilo(db, silo);
    LevelDb.DecodeEncode(silo, ACCENTED_KEY);
  }
}
