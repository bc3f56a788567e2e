/** From an incoming event to the answers of the plugin actions it triggers. */
module Actions {
  import opened Text
  import opened Messages
  import opened Answers

  const COMMAND_TYPE := "command"
  const HEAR_ACTION_TYPE := "hearAction"
  const DEFAULT_ACTION_ID := "default"

  datatype Msg = Msg(channel: string, timestamp: string, threadTimestamp: string,
                     user: string, botId: string, text: string)

  datatype IncomingMessage = IncomingMessage(normalizedText: string, msg: Msg)

  datatype Answer = Answer(text: string, options: seq<AnswerOption>)

  datatype ActionDefinition = ActionDefinition(
    matches: IncomingMessage -> bool,
    answer: IncomingMessage -> Option<Answer>)

  datatype Plugin = Plugin(name: string, namespaceCommands: bool,
                           commands: seq<ActionDefinition>, hearActions: seq<ActionDefinition>)

  datatype OutgoingMessage = OutgoingMessage(
    pluginActionId: string, channel: string, text: string, options: seq<AnswerOption>)

  datatype Strategy = Reply | DirectReply | Send

  /** What stays fixed while the bot runs: its identity, its plugins and its configuration. */
  datatype Bot = Bot(
    selfId: string, botId: string, cmdPrefix: string, namespaceCommands: bool,
    plugins: seq<Plugin>, defaultAction: IncomingMessage -> Answer,
    threading: ThreadingConfig,
    // Age in seconds of the second timestamp at the time of the first; None when one does not parse.
    ageOf: (string, string) -> Option<int>, maxAge: int)
  {
    predicate IsBot(m: Msg) {
      m.user == selfId || m.botId == selfId || m.botId == botId
    }

    predicate IsCommand(m: Msg) {
      cmdPrefix <= m.text || IsDirectMessage(m)
    }
  }

  predicate IsDirectMessage(m: Msg) {
    "D" <= m.channel
  }

  function NormalizeIncoming(e: MessageEvent): Msg {
    var m := Msg(e.channel, e.timestamp, e.threadTimestamp, e.user, e.botId, e.text);
    match e.subMessage
    case None => m
    case Some(sub) => m.(text := sub.text, user := sub.user, timestamp := sub.timestamp)
  }

  /** getActionID. */
  function ActionId(pluginName: string, actionType: string, index: nat): string {
    pluginName + "." + actionType + "[" + Itoa(index) + "]"
  }

  function Incoming(bot: Bot, m: Msg): IncomingMessage {
    IncomingMessage(
      if bot.cmdPrefix <= m.text && !IsDirectMessage(m) then TrimPrefix(m.text, bot.cmdPrefix) else m.text, m)
  }

  /** The message a plugin's commands see, or nothing when the command is in another namespace. */
  function IncomingCommand(bot: Bot, p: Plugin, m: Msg): Option<IncomingMessage> {
    var inMsg := Incoming(bot, m);
    if !(bot.namespaceCommands && p.namespaceCommands) then Some(inMsg)
    else if !(p.name + " " <= inMsg.normalizedText) then None
    else Some(inMsg.(normalizedText := TrimPrefix(inMsg.normalizedText, p.name + " ")))
  }

  /** useExistingThreadIfAny, then the response strategy. */
  function Respond(id: string, strategy: Strategy, m: IncomingMessage, answer: Answer): OutgoingMessage {
    var inThread := if m.msg.threadTimestamp != "" then [InExistingThread(m.msg.threadTimestamp)] else [];
    var noThread := if strategy.DirectReply? then [WithoutThreading] else [];
    var text := if strategy.Reply? then "<@" + m.msg.user + ">: " + answer.text else answer.text;
    OutgoingMessage(id, m.msg.channel, text, answer.options + inThread + noThread)
  }

  function Attempt(name: string, actionType: string, i: nat, action: ActionDefinition,
                   m: IncomingMessage, strategy: Strategy): seq<OutgoingMessage>
  {
    if !action.matches(m) then []
    else match action.answer(m)
         case None => []
         case Some(answer) => [Respond(ActionId(name, actionType, i), strategy, m, answer)]
  }

  /** The answers of the first n actions. */
  function Triggered(name: string, actionType: string, actions: seq<ActionDefinition>, n: nat,
                     m: IncomingMessage, strategy: Strategy): seq<OutgoingMessage>
    requires n <= |actions|
  {
    if n == 0 then []
    else Triggered(name, actionType, actions, n - 1, m, strategy)
         + Attempt(name, actionType, n - 1, actions[n - 1], m, strategy)
  }

  method TryPluginActions(name: string, actionType: string, actions: seq<ActionDefinition>,
                          m: IncomingMessage, strategy: Strategy)
    returns (outMsgs: seq<OutgoingMessage>)
    ensures outMsgs == Triggered(name, actionType, actions, |actions|, m, strategy)
  {
    outMsgs := [];
    for i := 0 to |actions|
      invariant outMsgs == Triggered(name, actionType, actions, i, m, strategy)
    {
      if actions[i].matches(m) {
        var answer := actions[i].answer(m);
        if answer.Some? {
          outMsgs := outMsgs + [Respond(ActionId(name, actionType, i), strategy, m, answer.value)];
        }
      }
    }
  }

  function StrategyFor(m: Msg): Strategy {
    if IsDirectMessage(m) then DirectReply else Reply
  }

  /** What one plugin answers to a message. */
  function PluginAnswers(bot: Bot, p: Plugin, m: Msg): seq<OutgoingMessage> {
    if !bot.IsCommand(m) then
      Triggered(p.name, HEAR_ACTION_TYPE, p.hearActions, |p.hearActions|, Incoming(bot, m), Send)
    else match IncomingCommand(bot, p, m)
         case None => []
         case Some(inMsg) =>
           Triggered(p.name, COMMAND_TYPE, p.commands, |p.commands|, inMsg, StrategyFor(m))
  }

  function FirstAnswers(bot: Bot, n: nat, m: Msg): seq<OutgoingMessage>
    requires n <= |bot.plugins|
  {
    if n == 0 then [] else FirstAnswers(bot, n - 1, m) + PluginAnswers(bot, bot.plugins[n - 1], m)
  }

  function DefaultAnswer(bot: Bot, m: Msg): OutgoingMessage {
    var inMsg := Incoming(bot, m);
    Respond(DEFAULT_ACTION_ID, StrategyFor(m), inMsg, bot.defaultAction(inMsg))
  }

  /** routeMessage as a function of the event. */
  function Routed(bot: Bot, e: MessageEvent): seq<OutgoingMessage> {
    var m := NormalizeIncoming(e);
    if bot.IsBot(m) then []
    else
      var answers := FirstAnswers(bot, |bot.plugins|, m);
      if bot.IsCommand(m) && answers == [] then
        [DefaultAnswer(bot, m)]
      else answers
  }

  /** The loop over the plugins for a command. */
  method TryCommands(bot: Bot, m: Msg) returns (responses: seq<OutgoingMessage>)
    requires bot.IsCommand(m)
    ensures responses == FirstAnswers(bot, |bot.plugins|, m)
  {
    responses := [];
    for i := 0 to |bot.plugins|
      invariant responses == FirstAnswers(bot, i, m)
    {
      var p := bot.plugins[i];
      var inMsg := IncomingCommand(bot, p, m);
      if inMsg.Some? {
        var outMsgs := TryPluginActions(p.name, COMMAND_TYPE, p.commands, inMsg.value, StrategyFor(m));
        assert outMsgs == PluginAnswers(bot, p, m);
        responses := responses + outMsgs;
      } else {
        assert PluginAnswers(bot, p, m) == [];
      }
    }
  }

  /** The loop over the plugins for a message that is no command. */
  method TryHearActions(bot: Bot, m: Msg) returns (responses: seq<OutgoingMessage>)
    requires !bot.IsCommand(m)
    ensures responses == FirstAnswers(bot, |bot.plugins|, m)
  {
    responses := [];
    for i := 0 to |bot.plugins|
      invariant responses == FirstAnswers(bot, i, m)
    {
      var p := bot.plugins[i];
      var outMsgs := TryPluginActions(p.name, HEAR_ACTION_TYPE, p.hearActions, Incoming(bot, m), Send);
      responses := responses + outMsgs;
    }
  }

  method RouteMessage(bot: Bot, e: MessageEvent) returns (responses: seq<OutgoingMessage>)
    ensures responses == Routed(bot, e)
  {
    var m := NormalizeIncoming(e);
    if bot.IsBot(m) {
      responses := [];
    } else if bot.IsCommand(m) {
      responses := TryCommands(bot, m);
      if |responses| == 0 {
        responses := [DefaultAnswer(bot, m)];
      }
    } else {
      responses := TryHearActions(bot, m);
    }
  }

  // ---- Action identity ----

  /** A plugin name, type and index can be read back from an action id: its index is the digits before "]". */
  lemma ActionIdInjective(n1: string, t1: string, i1: nat, n2: string, t2: string, i2: nat)
    requires {t1, t2} <= {COMMAND_TYPE, HEAR_ACTION_TYPE}
    ensures ActionId(n1, t1, i1) == ActionId(n2, t2, i2) <==> n1 == n2 && t1 == t2 && i1 == i2
  {
    if ActionId(n1, t1, i1) == ActionId(n2, t2, i2) {
      var h1, h2 := n1 + "." + t1 + "[", n2 + "." + t2 + "[";
      DigitsAreDigits(i1);
      DigitsAreDigits(i2);
      SameTail(h1, Itoa(i1), h2, Itoa(i2));
      ItoaInjective(i1, i2);
      var s1, s2 := n1 + "." + t1, n2 + "." + t2;
      assert s1 == h1[..|h1| - 1] && s2 == h2[..|h2| - 1];
      assert t1[|t1| - 1] == s1[|s1| - 1] == s2[|s2| - 1] == t2[|t2| - 1];
      assert n1 == s1[..|s1| - |t1| - 1] && n2 == s2[..|s2| - |t2| - 1];
    }
  }

  lemma NoBracketAfter(h: string, d: string, k: nat)
    requires forall c <- d :: IsDigit(c)
    requires |h| <= k <= |h| + |d|
    ensures (h + d + "]")[k] != '['
  {
    if k < |h| + |d| {
      assert IsDigit(d[k - |h|]);
    }
  }

  /** Two texts that end in "[digits]" agree on the digits and on what precedes them. */
  lemma SameTail(h1: string, d1: string, h2: string, d2: string)
    requires h1 != "" && h1[|h1| - 1] == '[' && h2 != "" && h2[|h2| - 1] == '['
    requires (forall c <- d1 :: IsDigit(c)) && (forall c <- d2 :: IsDigit(c))
    requires h1 + d1 + "]" == h2 + d2 + "]"
    ensures h1 == h2 && d1 == d2
  {
    var s1, s2 := h1 + d1 + "]", h2 + d2 + "]";
    if |h1| < |h2| {
      NoBracketAfter(h1, d1, |h2| - 1);
      assert false;
    } else if |h2| < |h1| {
      NoBracketAfter(h2, d2, |h1| - 1);
      assert false;
    }
    assert h1 == s1[..|h1|] && h2 == s2[..|h2|];
    assert d1 == s1[|h1|..|s1| - 1] && d2 == s2[|h2|..|s2| - 1];
  }

  lemma ActionIdNotDefault(name: string, actionType: string, index: nat)
    ensures ActionId(name, actionType, index) != DEFAULT_ACTION_ID
  {
    var id := ActionId(name, actionType, index);
    assert id[|id| - 1] == ']';
  }

  predicate DistinctNames(bot: Bot) {
    forall i, j :: 0 <= i < j < |bot.plugins| ==> bot.plugins[i].name != bot.plugins[j].name
  }

  predicate DistinctActions(outs: seq<OutgoingMessage>) {
    forall i, j :: 0 <= i < j < |outs| ==> outs[i].pluginActionId != outs[j].pluginActionId
  }

  ghost predicate FromAction(o: OutgoingMessage, name: string, actionType: string, n: nat) {
    exists i: nat :: i < n && o.pluginActionId == ActionId(name, actionType, i)
  }

  lemma DistinctConcat(before: seq<OutgoingMessage>, added: seq<OutgoingMessage>)
    requires DistinctActions(before) && DistinctActions(added)
    requires forall o <- before, o' <- added :: o.pluginActionId != o'.pluginActionId
    ensures DistinctActions(before + added)
  {
  }

  lemma {:induction false} TriggeredDistinct(name: string, actionType: string, actions: seq<ActionDefinition>, n: nat,
                            m: IncomingMessage, strategy: Strategy)
    requires n <= |actions| && actionType in {COMMAND_TYPE, HEAR_ACTION_TYPE}
    ensures var outs := Triggered(name, actionType, actions, n, m, strategy);
      DistinctActions(outs) && forall o <- outs :: FromAction(o, name, actionType, n)
  {
    if n > 0 {
      TriggeredDistinct(name, actionType, actions, n - 1, m, strategy);
      var before := Triggered(name, actionType, actions, n - 1, m, strategy);
      var added := Attempt(name, actionType, n - 1, actions[n - 1], m, strategy);
      assert forall o <- added :: o.pluginActionId == ActionId(name, actionType, n - 1);
      forall o <- before
        ensures FromAction(o, name, actionType, n) && o.pluginActionId != ActionId(name, actionType, n - 1)
      {
        var i: nat :| i < n - 1 && o.pluginActionId == ActionId(name, actionType, i);
        ActionIdInjective(name, actionType, i, name, actionType, n - 1);
      }
      DistinctConcat(before, added);
    }
  }

  function TypeFor(bot: Bot, m: Msg): string {
    if bot.IsCommand(m) then COMMAND_TYPE else HEAR_ACTION_TYPE
  }

  ghost predicate FromSomeAction(o: OutgoingMessage, name: string, actionType: string) {
    exists i: nat :: o.pluginActionId == ActionId(name, actionType, i)
  }

  lemma PluginAnswersDistinct(bot: Bot, p: Plugin, m: Msg)
    ensures DistinctActions(PluginAnswers(bot, p, m))
    ensures forall o <- PluginAnswers(bot, p, m) :: FromSomeAction(o, p.name, TypeFor(bot, m))
  {
    match IncomingCommand(bot, p, m) {
      case None =>
      case Some(inMsg) =>
        TriggeredDistinct(p.name, COMMAND_TYPE, p.commands, |p.commands|, inMsg, StrategyFor(m));
    }
    TriggeredDistinct(p.name, HEAR_ACTION_TYPE, p.hearActions, |p.hearActions|, Incoming(bot, m), Send);
    forall o <- PluginAnswers(bot, p, m)
      ensures FromSomeAction(o, p.name, TypeFor(bot, m))
    {
      var count := if bot.IsCommand(m) then |p.commands| else |p.hearActions|;
      assert FromAction(o, p.name, TypeFor(bot, m), count);
    }
  }

  lemma {:induction false} FirstAnswersDistinct(bot: Bot, n: nat, m: Msg)
    requires n <= |bot.plugins| && DistinctNames(bot)
    ensures DistinctActions(FirstAnswers(bot, n, m))
    ensures AllFromFirst(bot, n, m, FirstAnswers(bot, n, m))
  {
    if n > 0 {
      var p := bot.plugins[n - 1];
      FirstAnswersDistinct(bot, n - 1, m);
      PluginAnswersDistinct(bot, p, m);
      OneMorePlugin(bot, n - 1, m, FirstAnswers(bot, n - 1, m), PluginAnswers(bot, p, m));
      FirstAnswersStep(bot, n, m);
    }
  }

  lemma FirstAnswersStep(bot: Bot, n: nat, m: Msg)
    requires 0 < n <= |bot.plugins|
    ensures FirstAnswers(bot, n, m) == FirstAnswers(bot, n - 1, m) + PluginAnswers(bot, bot.plugins[n - 1], m)
  {
  }

  ghost predicate AllFromFirst(bot: Bot, n: nat, m: Msg, outs: seq<OutgoingMessage>)
    requires n <= |bot.plugins|
  {
    forall o <- outs :: FromFirstPlugins(bot, n, m, o)
  }

  /** The answers of one more plugin. */
  lemma OneMorePlugin(bot: Bot, n: nat, m: Msg, before: seq<OutgoingMessage>, added: seq<OutgoingMessage>)
    requires n < |bot.plugins| && DistinctNames(bot) && DistinctActions(before) && DistinctActions(added)
    requires AllFromFirst(bot, n, m, before)
    requires forall o <- added :: FromSomeAction(o, bot.plugins[n].name, TypeFor(bot, m))
    ensures DistinctActions(before + added)
    ensures AllFromFirst(bot, n + 1, m, before + added)
  {
    forall o <- before, o' <- added
      ensures o.pluginActionId != o'.pluginActionId
    {
      LaterPluginOtherId(bot, n, m, o, o');
    }
    DistinctConcat(before, added);
    forall o <- before + added
      ensures FromFirstPlugins(bot, n + 1, m, o)
    {
      if o in added {
        assert FromSomeAction(o, bot.plugins[n].name, TypeFor(bot, m));
      } else {
        MorePlugins(bot, n, m, o);
      }
    }
  }

  /** The answer is one of the first n plugins'. */
  ghost predicate FromFirstPlugins(bot: Bot, n: nat, m: Msg, o: OutgoingMessage)
    requires n <= |bot.plugins|
  {
    exists p :: 0 <= p < n && FromSomeAction(o, bot.plugins[p].name, TypeFor(bot, m))
  }

  lemma MorePlugins(bot: Bot, n: nat, m: Msg, o: OutgoingMessage)
    requires n < |bot.plugins| && FromFirstPlugins(bot, n, m, o)
    ensures FromFirstPlugins(bot, n + 1, m, o)
  {
    var p :| 0 <= p < n && FromSomeAction(o, bot.plugins[p].name, TypeFor(bot, m));
  }

  lemma LaterPluginOtherId(bot: Bot, n: nat, m: Msg, o: OutgoingMessage, o': OutgoingMessage)
    requires n < |bot.plugins| && DistinctNames(bot)
    requires FromFirstPlugins(bot, n, m, o) && FromSomeAction(o', bot.plugins[n].name, TypeFor(bot, m))
    ensures o.pluginActionId != o'.pluginActionId
  {
    var p :| 0 <= p < n && FromSomeAction(o, bot.plugins[p].name, TypeFor(bot, m));
    OtherPluginOtherId(bot.plugins[p].name, bot.plugins[n].name, TypeFor(bot, m), o, o');
  }

  lemma OtherPluginOtherId(n1: string, n2: string, actionType: string, o1: OutgoingMessage, o2: OutgoingMessage)
    requires n1 != n2 && actionType in {COMMAND_TYPE, HEAR_ACTION_TYPE}
    requires FromSomeAction(o1, n1, actionType) && FromSomeAction(o2, n2, actionType)
    ensures o1.pluginActionId != o2.pluginActionId
  {
    var i1: nat :| o1.pluginActionId == ActionId(n1, actionType, i1);
    var i2: nat :| o2.pluginActionId == ActionId(n2, actionType, i2);
    ActionIdInjective(n1, actionType, i1, n2, actionType, i2);
  }

  /** Every answer to an event has its own action id; the bot never answers itself and always answers a command. */
  lemma RoutedIdentity(bot: Bot, e: MessageEvent)
    requires DistinctNames(bot)
    ensures DistinctActions(Routed(bot, e))
    ensures var m := NormalizeIncoming(e);
      (bot.IsBot(m) ==> Routed(bot, e) == []) && (!bot.IsBot(m) && bot.IsCommand(m) ==> Routed(bot, e) != [])
    ensures var m := NormalizeIncoming(e);
      forall o <- Routed(bot, e) :: o.pluginActionId == DEFAULT_ACTION_ID
        <==> bot.IsCommand(m) && FirstAnswers(bot, |bot.plugins|, m) == []
  {
    var m := NormalizeIncoming(e);
    FirstAnswersDistinct(bot, |bot.plugins|, m);
    forall o <- FirstAnswers(bot, |bot.plugins|, m)
      ensures o.pluginActionId != DEFAULT_ACTION_ID
    {
      var p :| 0 <= p < |bot.plugins| && FromSomeAction(o, bot.plugins[p].name, TypeFor(bot, m));
      var i: nat :| o.pluginActionId == ActionId(bot.plugins[p].name, TypeFor(bot, m), i);
      ActionIdNotDefault(bot.plugins[p].name, TypeFor(bot, m), i);
    }
  }

  // ---- Thread placement ----

  lemma {:induction false} TriggeredShape(name: string, actionType: string, actions: seq<ActionDefinition>, n: nat,
                         m: IncomingMessage, strategy: Strategy)
    requires n <= |actions|
    ensures forall o <- Triggered(name, actionType, actions, n, m, strategy) :: Responds(o, strategy, m)
  {
    if n > 0 {
      TriggeredShape(name, actionType, actions, n - 1, m, strategy);
      AttemptShape(name, actionType, n - 1, actions[n - 1], m, strategy);
    }
  }

  ghost predicate Responds(o: OutgoingMessage, strategy: Strategy, m: IncomingMessage) {
    exists id, answer :: o == Respond(id, strategy, m, answer)
  }

  lemma AttemptShape(name: string, actionType: string, i: nat, action: ActionDefinition,
                     m: IncomingMessage, strategy: Strategy)
    ensures forall o <- Attempt(name, actionType, i, action, m, strategy) :: Responds(o, strategy, m)
  {
  }

  predicate IsResponse(bot: Bot, o: OutgoingMessage, m: Msg) {
    var opts := o.options;
    && o.channel == m.channel
    && (IsDirectMessage(m) ==> opts != [] && opts[|opts| - 1] == WithoutThreading)
    && (!IsDirectMessage(m) && m.threadTimestamp != "" ==>
          opts != [] && opts[|opts| - 1] == InExistingThread(m.threadTimestamp))
  }

  lemma PluginAnswersShape(bot: Bot, p: Plugin, m: Msg)
    ensures forall o <- PluginAnswers(bot, p, m) :: IsResponse(bot, o, m)
  {
    TriggeredShape(p.name, HEAR_ACTION_TYPE, p.hearActions, |p.hearActions|, Incoming(bot, m), Send);
    match IncomingCommand(bot, p, m) {
      case None =>
      case Some(inMsg) =>
        TriggeredShape(p.name, COMMAND_TYPE, p.commands, |p.commands|, inMsg, StrategyFor(m));
    }
  }

  predicate AreResponses(bot: Bot, m: Msg, outs: seq<OutgoingMessage>) {
    forall o <- outs :: IsResponse(bot, o, m)
  }

  lemma ResponsesConcat(bot: Bot, m: Msg, before: seq<OutgoingMessage>, added: seq<OutgoingMessage>)
    requires AreResponses(bot, m, before) && AreResponses(bot, m, added)
    ensures AreResponses(bot, m, before + added)
  {
  }

  lemma {:induction false} FirstAnswersShape(bot: Bot, n: nat, m: Msg)
    requires n <= |bot.plugins|
    ensures AreResponses(bot, m, FirstAnswers(bot, n, m))
  {
    if n > 0 {
      var p := bot.plugins[n - 1];
      FirstAnswersShape(bot, n - 1, m);
      PluginAnswersShape(bot, p, m);
      ResponsesConcat(bot, m, FirstAnswers(bot, n - 1, m), PluginAnswers(bot, p, m));
      FirstAnswersStep(bot, n, m);
    }
  }

  lemma RoutedShape(bot: Bot, e: MessageEvent, o: OutgoingMessage)
    requires o in Routed(bot, e)
    ensures IsResponse(bot, o, NormalizeIncoming(e))
  {
    FirstAnswersShape(bot, |bot.plugins|, NormalizeIncoming(e));
  }

  /** The last option decides on the thread. */
  lemma LastOptionPlaces(config: ThreadingConfig, opts: seq<AnswerOption>, defaultThreadTs: string)
    requires opts != []
    ensures var place := Place(config, Applied(opts), defaultThreadTs);
      match opts[|opts| - 1]
      case InExistingThread(ts) => ts != "" ==> place.thread == Some(ts)
      case WithoutThreading => place.thread.Some? <==> config.threadedReplies
      case _ => true
  {
    var last := |opts| - 1;
    match opts[last] {
      case InExistingThread(ts) =>
        AppliedLast(opts, last, THREADED_REPLY_OPT);
        AppliedLast(opts, last, THREAD_TIMESTAMP);
        PlaceInThread(config, Applied(opts), defaultThreadTs, ts);
      case WithoutThreading =>
        AppliedLast(opts, last, THREADED_REPLY_OPT);
        PlaceUnthreaded(config, Applied(opts), defaultThreadTs);
      case _ =>
    }
  }

  /** Whatever options the plugins choose, the thread of the message decides where its answers go. */
  lemma ThreadPlacement(bot: Bot, e: MessageEvent, o: OutgoingMessage, defaultThreadTs: string)
    requires o in Routed(bot, e)
    ensures var m := NormalizeIncoming(e);
      var place := Place(bot.threading, Applied(o.options), defaultThreadTs);
      && o.channel == e.channel
      && (e.threadTimestamp != "" && !IsDirectMessage(m) ==> place.thread == Some(e.threadTimestamp))
      && (IsDirectMessage(m) ==> (place.thread.Some? <==> bot.threading.threadedReplies))
      && (place.broadcast ==> place.thread.Some?)
  {
    RoutedShape(bot, e, o);
    if o.options != [] {
      LastOptionPlaces(bot.threading, o.options, defaultThreadTs);
    }
  }
}
