/** The triggerer plugin: triggers of a channel over global ones, and the reactions to a message. */
module Triggers {
  import opened Text
  import opened SiloMaps
  import opened DatastoreDb
  import opened InMemoryDb
  import Emoji

  const EMOJI_TRIGGER_TYPE_ID := 'E'
  const STANDARD_TRIGGER_TYPE_ID := 'S'
  const GLOBAL_SILO_NAME := ""

  /** The triggers of one type: trigger to stored reaction. */
  type TriggerMap = map<string, string>

  predicate IsType(typeId: char) {
    typeId == EMOJI_TRIGGER_TYPE_ID || typeId == STANDARD_TRIGGER_TYPE_ID
  }

  function EncodeTrigger(trigger: string, typeId: char): string {
    [typeId] + trigger
  }

  /** The reaction encoder of a type: an emoji reaction must hold an emoji. */
  function EncodeReaction(typeId: char, rawReaction: string): Option<string> {
    if typeId == EMOJI_TRIGGER_TYPE_ID then Emoji.EncodeEmojiReaction(rawReaction) else Some(rawReaction)
  }

  // ---- What a channel sees ----

  function Find(triggers: TriggerMap, trigger: string): Option<string> {
    if trigger in triggers then Some(triggers[trigger]) else None
  }

  /** The reaction of the channel's own trigger, or else of the global one. */
  function Visible(silos: Silos, channel: string, typeId: char, trigger: string): Option<string> {
    var own := Lookup(silos, channel, EncodeTrigger(trigger, typeId));
    if own.Some? then own else Lookup(silos, GLOBAL_SILO_NAME, EncodeTrigger(trigger, typeId))
  }

  predicate KnownKey(key: string) {
    key != "" && IsType(key[0])
  }

  /** Every stored key starts with the rune of a known type. */
  ghost predicate KnownKeys(silos: Silos) {
    forall silo, key | Lookup(silos, silo, key).Some? :: KnownKey(key)
  }

  /** The triggers by type are those that can be seen, for both types. */
  ghost predicate SplitByType(byType: map<char, TriggerMap>, silos: Silos, channel: string) {
    && byType.Keys == {EMOJI_TRIGGER_TYPE_ID, STANDARD_TRIGGER_TYPE_ID}
    && forall typeId <- byType, trigger :: Find(byType[typeId], trigger) == Visible(silos, channel, typeId, trigger)
  }

  // ---- Commands on the store ----

  datatype Command =
    | Register(silo: string, typeId: char, trigger: string, rawReaction: string)
    | Forget(channel: string, typeId: char, trigger: string)
  {
    predicate IsTyped() {
      IsType(typeId)
    }

    function Key(): string {
      EncodeTrigger(trigger, typeId)
    }
  }

  /** An empty reaction reads as a missing trigger. */
  predicate IsRegistered(silos: Silos, silo: string, key: string) {
    Lookup(silos, silo, key).Some? && Lookup(silos, silo, key).value != ""
  }

  /** The write a command makes, if any: a deletion tries the channel, then the global silo. */
  function WriteOf(silos: Silos, command: Command): Option<Write> {
    match command
    case Register(silo, typeId, _, rawReaction) =>
      (match EncodeReaction(typeId, rawReaction)
       case None => None
       case Some(reaction) => Some(Setting(silo, command.Key(), reaction)))
    case Forget(channel, _, _) =>
      if IsRegistered(silos, channel, command.Key()) then Some(Removal(channel, command.Key()))
      else if IsRegistered(silos, GLOBAL_SILO_NAME, command.Key()) then Some(Removal(GLOBAL_SILO_NAME, command.Key()))
      else None
  }

  /** A command on a store that does not fail. */
  function Executed(silos: Silos, command: Command): Silos {
    match WriteOf(silos, command)
    case None => silos
    case Some(write) => InMemory(silos, write)
  }

  function ExecutedAll(commands: seq<Command>): Silos {
    if commands == [] then map[] else Executed(ExecutedAll(commands[..|commands| - 1]), commands[|commands| - 1])
  }

  lemma LookupExecuted(silos: Silos, command: Command, silo: string, key: string)
    ensures Lookup(Executed(silos, command), silo, key) == match WriteOf(silos, command)
      case None => Lookup(silos, silo, key)
      case Some(write) =>
        if write.silo != silo || write.key != key then Lookup(silos, silo, key)
        else if write.Setting? then Some(write.value) else None
  {
    var write := WriteOf(silos, command);
    if write.Some? && write.value.Setting? {
      var s, k := write.value.silo, write.value.key;
      assert k in SiloOf(silos, s)[k := write.value.value];
    }
  }

  // ---- The log decides what is stored ----

  /** A reaction that a forget command takes for a trigger. */
  predicate Shows(reaction: Option<string>) {
    reaction.Some? && reaction.value != ""
  }

  /**
   The reaction last registered in a silo and not forgotten since, going by the commands alone. A forget command is
   for the channel if a reaction shows there and for the global silo if not, and passes over an empty reaction.
   */
  function InForce(commands: seq<Command>, silo: string, typeId: char, trigger: string): Option<string> {
    if commands == [] then None
    else
      var before, last := commands[..|commands| - 1], commands[|commands| - 1];
      var reaction := InForce(before, silo, typeId, trigger);
      if last.typeId != typeId || last.trigger != trigger then reaction
      else match last
           case Register(s, _, _, rawReaction) =>
             if s == silo && EncodeReaction(typeId, rawReaction).Some? then EncodeReaction(typeId, rawReaction)
             else reaction
           case Forget(channel, _, _) =>
             var target := if Shows(InForce(before, channel, typeId, trigger)) then channel else GLOBAL_SILO_NAME;
             if silo == target && Shows(reaction) then None else reaction
  }

  /** The same when no reaction is empty: a forget command is for the channel if it has the trigger, else global. */
  function PlainlyInForce(commands: seq<Command>, silo: string, typeId: char, trigger: string): Option<string> {
    if commands == [] then None
    else
      var before, last := commands[..|commands| - 1], commands[|commands| - 1];
      var reaction := PlainlyInForce(before, silo, typeId, trigger);
      if last.typeId != typeId || last.trigger != trigger then reaction
      else match last
           case Register(s, _, _, rawReaction) =>
             if s == silo && EncodeReaction(typeId, rawReaction).Some? then EncodeReaction(typeId, rawReaction)
             else reaction
           case Forget(channel, _, _) =>
             if channel == silo then None
             else if silo == GLOBAL_SILO_NAME && PlainlyInForce(before, channel, typeId, trigger).None? then None
             else reaction
  }

  /** The channel's own triggers in force, or else the global ones. */
  function Scoped(commands: seq<Command>, channel: string, typeId: char, trigger: string): Option<string> {
    var own := InForce(commands, channel, typeId, trigger);
    if own.Some? then own else InForce(commands, GLOBAL_SILO_NAME, typeId, trigger)
  }

  /** A command that registers no empty reaction. */
  predicate Proper(command: Command) {
    command.Register? ==> EncodeReaction(command.typeId, command.rawReaction) != Some("")
  }

  lemma KeyIdentifies(trigger: string, typeId: char, trigger': string, typeId': char)
    ensures EncodeTrigger(trigger, typeId) == EncodeTrigger(trigger', typeId') <==>
      trigger == trigger' && typeId == typeId'
  {
    assert EncodeTrigger(trigger, typeId)[1..] == trigger && EncodeTrigger(trigger', typeId')[1..] == trigger';
    assert EncodeTrigger(trigger, typeId)[0] == typeId && EncodeTrigger(trigger', typeId')[0] == typeId';
  }

  /** What is stored is what the commands alone say. */
  lemma {:induction false} StoredInForce(commands: seq<Command>, silo: string, typeId: char, trigger: string)
    ensures Lookup(ExecutedAll(commands), silo, EncodeTrigger(trigger, typeId))
      == InForce(commands, silo, typeId, trigger)
  {
    if commands != [] {
      var before, last := commands[..|commands| - 1], commands[|commands| - 1];
      StoredInForce(before, silo, typeId, trigger);
      KeyIdentifies(trigger, typeId, last.trigger, last.typeId);
      LookupExecuted(ExecutedAll(before), last, silo, EncodeTrigger(trigger, typeId));
      if last.Forget? {
        StoredInForce(before, last.channel, typeId, trigger);
      }
    }
  }

  lemma {:induction false} PlainIfProper(commands: seq<Command>, silo: string, typeId: char, trigger: string)
    requires forall c <- commands :: Proper(c)
    ensures InForce(commands, silo, typeId, trigger) == PlainlyInForce(commands, silo, typeId, trigger) != Some("")
  {
    if commands != [] {
      var before, last := commands[..|commands| - 1], commands[|commands| - 1];
      assert Proper(last);
      PlainIfProper(before, silo, typeId, trigger);
      if last.Forget? {
        PlainIfProper(before, last.channel, typeId, trigger);
      }
    }
  }

  lemma {:induction false} KeysStayKnown(commands: seq<Command>)
    requires forall c <- commands :: c.IsTyped()
    ensures KnownKeys(ExecutedAll(commands))
  {
    if commands != [] {
      var before, last := commands[..|commands| - 1], commands[|commands| - 1];
      assert last.IsTyped();
      KeysStayKnown(before);
      forall silo, key | Lookup(ExecutedAll(commands), silo, key).Some?
        ensures KnownKey(key)
      {
        LookupExecuted(ExecutedAll(before), last, silo, key);
      }
    }
  }

  /**
   Over every run of typed register and forget commands every stored key has a known type, and a channel sees its own
   triggers in force over the global ones.
   */
  lemma RunScopes(commands: seq<Command>, channel: string, typeId: char, trigger: string)
    requires forall c <- commands :: c.IsTyped()
    ensures KnownKeys(ExecutedAll(commands))
    ensures Visible(ExecutedAll(commands), channel, typeId, trigger) == Scoped(commands, channel, typeId, trigger)
  {
    KeysStayKnown(commands);
    StoredInForce(commands, channel, typeId, trigger);
    StoredInForce(commands, GLOBAL_SILO_NAME, typeId, trigger);
  }

  /** Forgetting a channel's trigger shows the global one it hid, to that channel, and changes nothing for others. */
  lemma ForgetExposesGlobal(silos: Silos, channel: string, typeId: char, trigger: string, other: string)
    requires channel != GLOBAL_SILO_NAME && other != channel
    requires IsRegistered(silos, channel, EncodeTrigger(trigger, typeId))
    ensures var silos' := Executed(silos, Forget(channel, typeId, trigger));
      && Visible(silos', channel, typeId, trigger)
        == Lookup(silos, GLOBAL_SILO_NAME, EncodeTrigger(trigger, typeId))
      && Visible(silos', other, typeId, trigger) == Visible(silos, other, typeId, trigger)
  {
    var command, key := Forget(channel, typeId, trigger), EncodeTrigger(trigger, typeId);
    LookupExecuted(silos, command, channel, key);
    LookupExecuted(silos, command, other, key);
    LookupExecuted(silos, command, GLOBAL_SILO_NAME, key);
  }

  /** What a forget command is for: the trigger goes from the channel if it is there, else from the global silo. */
  function Forgotten(silos: Silos, channel: string, key: string): Silos {
    InMemory(silos, Removal(if Lookup(silos, channel, key).Some? then channel else GLOBAL_SILO_NAME, key))
  }

  /** It does that exactly when the reaction of the trigger the channel sees is not empty. */
  lemma ForgetsUnlessEmpty(silos: Silos, channel: string, typeId: char, trigger: string)
    ensures Executed(silos, Forget(channel, typeId, trigger))
        == Forgotten(silos, channel, EncodeTrigger(trigger, typeId))
      <==> Visible(silos, channel, typeId, trigger) != Some("")
  {
    var key := EncodeTrigger(trigger, typeId);
    var silo := if Lookup(silos, channel, key).Some? then channel else GLOBAL_SILO_NAME;
    LookupExecuted(silos, Forget(channel, typeId, trigger), silo, key);
    assert Lookup(Forgotten(silos, channel, key), silo, key).None?;
    if Visible(silos, channel, typeId, trigger).None? && silo in silos {
      assert silos[silo] - {key} == silos[silo];
      assert silos[silo := silos[silo] - {key}] == silos;
    }
  }

  /** A forget reaches the global silo past a trigger of the channel exactly when that trigger's reaction is empty. */
  lemma ForgetsPastOwn(silos: Silos, channel: string, typeId: char, trigger: string)
    ensures var key := EncodeTrigger(trigger, typeId);
      Lookup(silos, channel, key).Some?
      && WriteOf(silos, Forget(channel, typeId, trigger)) == Some(Removal(GLOBAL_SILO_NAME, key))
      && channel != GLOBAL_SILO_NAME
      <==>
      Lookup(silos, channel, key) == Some("") && IsRegistered(silos, GLOBAL_SILO_NAME, key)
  {
  }

  /** The store if every forget command did what it is for. */
  function IntendedAll(commands: seq<Command>): Silos {
    if commands == [] then map[]
    else
      var before, last := IntendedAll(commands[..|commands| - 1]), commands[|commands| - 1];
      if last.Forget? then Forgotten(before, last.channel, last.Key()) else Executed(before, last)
  }

  /** No forget command of the run meets an empty reaction. */
  ghost predicate NoForgetOfEmpty(commands: seq<Command>) {
    forall n | 0 <= n < |commands| && commands[n].Forget? :: SeesReaction(commands, n)
  }

  predicate SeesReaction(commands: seq<Command>, n: nat)
    requires n < |commands| && commands[n].Forget?
  {
    var c := commands[n];
    Visible(ExecutedAll(commands[..n]), c.channel, c.typeId, c.trigger) != Some("")
  }

  ghost predicate AsIntended(commands: seq<Command>) {
    forall n | 0 <= n <= |commands| :: ExecutedAll(commands[..n]) == IntendedAll(commands[..n])
  }

  /** A run keeps to what its commands are for, all along, exactly when no forget command meets an empty reaction. */
  lemma {:induction false} IntendedUnlessEmpty(commands: seq<Command>)
    ensures AsIntended(commands) <==> NoForgetOfEmpty(commands)
  {
    if commands != [] {
      var n := |commands| - 1;
      IntendedUnlessEmpty(commands[..n]);
      MoreIntended(commands);
      MoreSeen(commands);
      var last := commands[n];
      assert commands[..n][..n] == commands[..n];
      if last.Forget? {
        ForgetsUnlessEmpty(ExecutedAll(commands[..n]), last.channel, last.typeId, last.trigger);
      }
    }
  }

  lemma MoreIntended(commands: seq<Command>)
    requires commands != []
    ensures AsIntended(commands) <==>
      AsIntended(commands[..|commands| - 1]) && ExecutedAll(commands) == IntendedAll(commands)
  {
    var n, before := |commands| - 1, commands[..|commands| - 1];
    assert commands[..n + 1] == commands;
    forall i | 0 <= i <= n
      ensures before[..i] == commands[..i]
    {
    }
    if AsIntended(commands) {
      forall i | 0 <= i <= n
        ensures ExecutedAll(before[..i]) == IntendedAll(before[..i])
      {
        assert ExecutedAll(commands[..i]) == IntendedAll(commands[..i]);
      }
    }
    if AsIntended(before) && ExecutedAll(commands) == IntendedAll(commands) {
      forall i | 0 <= i <= n + 1
        ensures ExecutedAll(commands[..i]) == IntendedAll(commands[..i])
      {
        assert i <= n ==> ExecutedAll(before[..i]) == IntendedAll(before[..i]);
      }
    }
  }

  lemma MoreSeen(commands: seq<Command>)
    requires commands != []
    ensures var n := |commands| - 1;
      NoForgetOfEmpty(commands) <==>
        NoForgetOfEmpty(commands[..n]) && (commands[n].Forget? ==> SeesReaction(commands, n))
  {
    var n, before := |commands| - 1, commands[..|commands| - 1];
    forall i | 0 <= i < n && commands[i].Forget?
      ensures SeesReaction(before, i) <==> SeesReaction(commands, i)
    {
      assert before[..i] == commands[..i];
    }
  }

  // ---- The plugin ----

  /** A compiled trigger expression. */
  datatype Regexp = Regexp(matches: string -> bool)

  datatype Outcome = Invalid | Registered | Replaced(previous: string) | NotPersisted
                   | Deleted(reaction: string) | NotDeleted | NoTrigger

  class EmojiReactor {
    var added: seq<string>

    method AddReaction(emoji: string)
      modifies this
      ensures added == old(added) + [emoji]
    {
      added := added + [emoji];
    }
  }

  /** A visible trigger of a type that matches the text. */
  ghost predicate Fires(compile: string -> Regexp, triggers: TriggerMap, text: string, trigger: string) {
    trigger in triggers && compile(trigger).matches(text)
  }

  /** The emojis of some triggers, one trigger after the other. */
  function EmojisOf(triggers: TriggerMap, order: seq<string>): seq<string>
    requires forall t <- order :: t in triggers
  {
    if order == [] then []
    else
      var before, last := order[..|order| - 1], order[|order| - 1];
      EmojisOf(triggers, before) + Emoji.ParseEmojiList(triggers[last])
  }

  /** The firing triggers outside a set, each once, in some order. */
  ghost predicate IsOrder(compile: string -> Regexp, triggers: TriggerMap, text: string, remaining: set<string>,
                          order: seq<string>)
  {
    && (forall i, j | 0 <= i < j < |order| :: order[i] != order[j])
    && (forall t :: t in order <==> Fires(compile, triggers, text, t) && t !in remaining)
  }

  /** The emojis of the firing triggers outside a set, each trigger once. */
  ghost predicate AreReactionsBut(compile: string -> Regexp, triggers: TriggerMap, text: string,
                                  remaining: set<string>, emojis: seq<string>)
  {
    exists order :: IsOrder(compile, triggers, text, remaining, order) && (forall t <- order :: t in triggers)
                    && emojis == EmojisOf(triggers, order)
  }

  /** The emojis of all firing triggers, each trigger once. */
  ghost predicate AreReactions(compile: string -> Regexp, triggers: TriggerMap, text: string, emojis: seq<string>) {
    AreReactionsBut(compile, triggers, text, {}, emojis)
  }

  /** An answer is given when some trigger fires, and then it is the reaction of one that does. */
  ghost predicate AnswersWith(compile: string -> Regexp, triggers: TriggerMap, text: string, answer: Option<string>) {
    && (answer.Some? <==> exists trigger :: Fires(compile, triggers, text, trigger))
    && (answer.Some? ==> exists trigger :: Fires(compile, triggers, text, trigger) && answer.value == triggers[trigger])
  }

  lemma OrderMore(compile: string -> Regexp, triggers: TriggerMap, text: string, remaining: set<string>,
                  order: seq<string>, trigger: string)
    requires IsOrder(compile, triggers, text, remaining, order) && trigger in remaining
    requires Fires(compile, triggers, text, trigger)
    ensures IsOrder(compile, triggers, text, remaining - {trigger}, order + [trigger])
  {
  }

  lemma EmojisMore(triggers: TriggerMap, order: seq<string>, trigger: string)
    requires trigger in triggers && forall t <- order :: t in triggers
    ensures EmojisOf(triggers, order + [trigger])
      == EmojisOf(triggers, order) + Emoji.ParseEmojiList(triggers[trigger])
  {
    assert (order + [trigger])[..|order|] == order;
  }

  ghost function ReactionTo(compile: string -> Regexp, triggers: TriggerMap, text: string, trigger: string): seq<string>
    requires trigger in triggers
  {
    if Fires(compile, triggers, text, trigger) then Emoji.ParseEmojiList(triggers[trigger]) else []
  }

  lemma NoReactionsYet(compile: string -> Regexp, triggers: TriggerMap, text: string)
    ensures AreReactionsBut(compile, triggers, text, triggers.Keys, [])
  {
    assert IsOrder(compile, triggers, text, triggers.Keys, []);
  }

  lemma ReactionsMore(compile: string -> Regexp, triggers: TriggerMap, text: string, remaining: set<string>,
                      emojis: seq<string>, trigger: string)
    returns (more: seq<string>)
    requires AreReactionsBut(compile, triggers, text, remaining, emojis) && trigger in remaining && trigger in triggers
    ensures AreReactionsBut(compile, triggers, text, remaining - {trigger}, more)
    ensures more == emojis + ReactionTo(compile, triggers, text, trigger)
  {
    var order :| IsOrder(compile, triggers, text, remaining, order) && (forall t <- order :: t in triggers)
      && emojis == EmojisOf(triggers, order);
    if Fires(compile, triggers, text, trigger) {
      EmojisMore(triggers, order, trigger);
      OrderMore(compile, triggers, text, remaining, order, trigger);
      more := EmojisOf(triggers, order + [trigger]);
    } else {
      assert IsOrder(compile, triggers, text, remaining - {trigger}, order);
      more := emojis;
    }
  }

  lemma ConcatAssociates(a: seq<string>, b: seq<string>, c: seq<string>)
    ensures a + (b + c) == a + b + c
  {
  }

  method AddAll(reactor: EmojiReactor, emojis: seq<string>)
    modifies reactor
    ensures reactor.added == old(reactor.added) + emojis
  {
    for i := 0 to |emojis|
      invariant reactor.added == old(reactor.added) + emojis[..i]
    {
      reactor.AddReaction(emojis[i]);
    }
    assert emojis[..|emojis|] == emojis;
  }

  predicate IsSplitAt(byType: map<char, TriggerMap>, triggers: EntriesOf<string>, typeId: char, trigger: string) {
    typeId in byType && Find(byType[typeId], trigger) == Find(triggers, EncodeTrigger(trigger, typeId))
  }

  /** The triggers by type are those of the flat map. */
  ghost predicate IsSplit(byType: map<char, TriggerMap>, triggers: EntriesOf<string>) {
    && byType.Keys == {EMOJI_TRIGGER_TYPE_ID, STANDARD_TRIGGER_TYPE_ID}
    && forall typeId, trigger | IsType(typeId) :: IsSplitAt(byType, triggers, typeId, trigger)
  }

  lemma SplitMore(byType: map<char, TriggerMap>, triggers: EntriesOf<string>, typeId: char, trigger: string,
                  reaction: string)
    requires IsSplit(byType, triggers) && IsType(typeId)
    ensures IsSplit(byType[typeId := byType[typeId][trigger := reaction]],
                    triggers[EncodeTrigger(trigger, typeId) := reaction])
  {
    var byType' := byType[typeId := byType[typeId][trigger := reaction]];
    var triggers' := triggers[EncodeTrigger(trigger, typeId) := reaction];
    forall typeId', trigger' | IsType(typeId')
      ensures IsSplitAt(byType', triggers', typeId', trigger')
    {
      assert IsSplitAt(byType, triggers, typeId', trigger');
      KeyIdentifies(trigger, typeId, trigger', typeId');
      FindMore(byType[typeId'], triggers, trigger, EncodeTrigger(trigger, typeId), reaction,
               trigger', EncodeTrigger(trigger', typeId'), typeId == typeId');
    }
    assert byType'.Keys == byType.Keys;
  }

  lemma FindMore(before: TriggerMap, triggers: EntriesOf<string>, trigger: string, key: string, reaction: string,
                 trigger': string, key': string, sameType: bool)
    requires Find(before, trigger') == Find(triggers, key')
    requires key == key' <==> sameType && trigger == trigger'
    ensures Find(if sameType then before[trigger := reaction] else before, trigger')
      == Find(triggers[key := reaction], key')
  {
  }

  lemma AddBack(triggers: EntriesOf<string>, remaining: set<string>, key: string)
    requires key in remaining && key in triggers
    ensures (triggers - remaining)[key := triggers[key]] == triggers - (remaining - {key})
  {
  }

  lemma EncodeParts(key: string)
    requires key != ""
    ensures EncodeTrigger(key[1..], key[0]) == key
  {
  }

  /** The loop that distributes the triggers over the types. */
  method SplitTriggers(triggers: EntriesOf<string>) returns (byType: map<char, TriggerMap>)
    requires forall key <- triggers :: KnownKey(key)
    ensures IsSplit(byType, triggers)
  {
    byType := map[EMOJI_TRIGGER_TYPE_ID := map[], STANDARD_TRIGGER_TYPE_ID := map[]];
    var remaining := triggers.Keys;
    while remaining != {}
      invariant remaining <= triggers.Keys && IsSplit(byType, triggers - remaining)
    {
      var rawTrigger :| rawTrigger in remaining;
      var reaction := triggers[rawTrigger];
      if |rawTrigger| > 0 {
        var typeId, trigger := rawTrigger[0], rawTrigger[1..];
        EncodeParts(rawTrigger);
        SplitMore(byType, triggers - remaining, typeId, trigger, reaction);
        byType := byType[typeId := byType[typeId][trigger := reaction]];
      }
      AddBack(triggers, remaining, rawTrigger);
      remaining := remaining - {rawTrigger};
    }
    assert triggers - {} == triggers;
  }

  /** The loop that writes the channel's triggers over the scanned global ones. */
  method Override(triggers: GoMap, chTriggers: EntriesOf<string>)
    modifies triggers
    ensures triggers.entries == old(triggers.entries) + chTriggers
  {
    var remaining := chTriggers.Keys;
    while remaining != {}
      invariant remaining <= chTriggers.Keys
      invariant triggers.entries == old(triggers.entries) + (chTriggers - remaining)
    {
      var k :| k in remaining;
      AddBack(chTriggers, remaining, k);
      triggers.entries := triggers.entries[k := chTriggers[k]];
      remaining := remaining - {k};
    }
    assert chTriggers - {} == chTriggers;
  }

  lemma KnownMerged(silos: Silos, channel: string)
    requires KnownKeys(silos)
    ensures forall key <- SiloOf(silos, GLOBAL_SILO_NAME) + SiloOf(silos, channel) :: KnownKey(key)
  {
    forall key <- SiloOf(silos, GLOBAL_SILO_NAME) + SiloOf(silos, channel)
      ensures KnownKey(key)
    {
      assert Lookup(silos, channel, key).Some? || Lookup(silos, GLOBAL_SILO_NAME, key).Some?;
    }
  }

  lemma SplitIsVisible(byType: map<char, TriggerMap>, silos: Silos, channel: string)
    requires IsSplit(byType, SiloOf(silos, GLOBAL_SILO_NAME) + SiloOf(silos, channel))
    ensures SplitByType(byType, silos, channel)
  {
    var triggers := SiloOf(silos, GLOBAL_SILO_NAME) + SiloOf(silos, channel);
    forall typeId <- byType, trigger
      ensures Find(byType[typeId], trigger) == Visible(silos, channel, typeId, trigger)
    {
      assert IsSplitAt(byType, triggers, typeId, trigger);
    }
  }

  /** Some trigger that the channel sees matches the text. */
  ghost predicate SomeMatches(compile: string -> Regexp, silos: Silos, channel: string, text: string) {
    exists typeId, trigger :: IsType(typeId) && Visible(silos, channel, typeId, trigger).Some?
                              && compile(trigger).matches(text)
  }

  lemma SomeFires(compile: string -> Regexp, silos: Silos, channel: string, byType: map<char, TriggerMap>, text: string)
    requires SplitByType(byType, silos, channel)
    ensures SomeMatches(compile, silos, channel, text)
      <==> exists typeId <- byType, trigger :: Fires(compile, byType[typeId], text, trigger)
  {
    if typeId, trigger :| typeId in byType && Fires(compile, byType[typeId], text, trigger) {
      assert Find(byType[typeId], trigger) == Visible(silos, channel, typeId, trigger);
    }
    if typeId, trigger :| IsType(typeId) && Visible(silos, channel, typeId, trigger).Some?
                          && compile(trigger).matches(text)
    {
      assert Find(byType[typeId], trigger) == Visible(silos, channel, typeId, trigger);
      assert Fires(compile, byType[typeId], text, trigger);
    }
  }

  class Triggerer {
    const triggerStorer: InMemoryDB
    const compile: string -> Regexp
    var triggerRegexes: map<string, Regexp>

    /** The cache holds compiled expressions of the triggers it is asked for. */
    ghost predicate Valid()
      reads this
    {
      forall encTrigger <- triggerRegexes ::
        encTrigger != "" && triggerRegexes[encTrigger] == compile(encTrigger[1..])
    }

    constructor (storer: InMemoryDB, compile: string -> Regexp)
      ensures Valid() && triggerStorer == storer && this.compile == compile
    {
      triggerStorer := storer;
      this.compile := compile;
      triggerRegexes := map[];
    }

    method RegisterTrigger(silo: string, typeId: char, trigger: string, rawReaction: string, attempts: Attempts)
      returns (outcome: Outcome)
      requires triggerStorer.Valid()
      modifies triggerStorer, triggerStorer.data.Values, triggerStorer.persistentStorer.datastorer
      ensures triggerStorer.Valid()
      ensures var before, command := old(triggerStorer.State()), Register(silo, typeId, trigger, rawReaction);
        var write := WriteOf(before.memory, command);
        && triggerStorer.State()
          == (if write.Some? then WriteThrough(before, Attempted(write.value, attempts)) else before)
        && outcome == if write.None? then Invalid
                      else if attempts.Error().Some? then NotPersisted
                      else if IsRegistered(before.memory, silo, command.Key())
                      then Replaced(before.memory[silo][command.Key()]) else Registered
    {
      var encodedTrigger := EncodeTrigger(trigger, typeId);
      var encodedReaction := EncodeReaction(typeId, rawReaction);
      if encodedReaction.None? {
        return Invalid;
      }
      outcome := Registered;
      var existing := triggerStorer.GetSiloString(silo, encodedTrigger);
      if existing.Some? && existing.value != "" {
        outcome := Replaced(existing.value);
      }
      var err := triggerStorer.PutSiloString(silo, encodedTrigger, encodedReaction.value, attempts);
      if err.Some? {
        return NotPersisted;
      }
    }

    /** Nothing when the silo has no such trigger, or one with an empty reaction. */
    method DeleteChannelTrigger(channel: string, trigger: string, typeId: char, attempts: Attempts)
      returns (outcome: Option<Outcome>)
      requires triggerStorer.Valid()
      modifies triggerStorer.data.Values, triggerStorer.persistentStorer.datastorer
      ensures triggerStorer.Valid()
      ensures var before, key := old(triggerStorer.State()), EncodeTrigger(trigger, typeId);
        var registered := IsRegistered(before.memory, channel, key);
        && triggerStorer.State()
          == (if registered then WriteThrough(before, Attempted(Removal(channel, key), attempts)) else before)
        && outcome == if !registered then None
                      else if attempts.Error().Some? then Some(NotDeleted)
                      else Some(Deleted(before.memory[channel][key]))
    {
      var encodedTrigger := EncodeTrigger(trigger, typeId);
      var existing := triggerStorer.GetSiloString(channel, encodedTrigger);
      if existing.None? || existing.value == "" {
        return None;
      }
      var err := triggerStorer.DeleteSiloString(channel, encodedTrigger, attempts);
      outcome := Some(if err.Some? then NotDeleted else Deleted(existing.value));
    }

    method DeleteTrigger(channel: string, trigger: string, typeId: char, attempts: Attempts)
      returns (outcome: Outcome)
      requires triggerStorer.Valid()
      modifies triggerStorer.data.Values, triggerStorer.persistentStorer.datastorer
      ensures triggerStorer.Valid()
      ensures var before := old(triggerStorer.State());
        var write := WriteOf(before.memory, Forget(channel, typeId, trigger));
        && triggerStorer.State()
          == (if write.Some? then WriteThrough(before, Attempted(write.value, attempts)) else before)
        && outcome == if write.None? then NoTrigger
                      else if attempts.Error().Some? then NotDeleted
                      else Deleted(before.memory[write.value.silo][write.value.key])
    {
      var a := DeleteChannelTrigger(channel, trigger, typeId, attempts);
      if a.None? {
        a := DeleteChannelTrigger(GLOBAL_SILO_NAME, trigger, typeId, attempts);
      }
      outcome := if a.Some? then a.value else NoTrigger;
    }

    /** The global triggers, overridden by those of the channel, split by type; the store is not changed. */
    method GetTriggersByType(channelId: string) returns (byType: map<char, TriggerMap>)
      requires triggerStorer.Valid() && KnownKeys(triggerStorer.Contents())
      ensures SplitByType(byType, triggerStorer.Contents(), channelId)
    {
      var triggers := triggerStorer.ScanSilo(GLOBAL_SILO_NAME);
      var chTriggers := triggerStorer.ScanSilo(channelId);
      ghost var silos := triggerStorer.Contents();
      Override(triggers, chTriggers.entries);
      KnownMerged(silos, channelId);
      byType := SplitTriggers(triggers.entries);
      SplitIsVisible(byType, silos, channelId);
    }

    /** Compiled on first use, then taken from the cache. */
    method GetTriggerRegexp(typeId: char, trigger: string) returns (exp: Regexp)
      requires Valid()
      modifies this`triggerRegexes
      ensures Valid() && exp == compile(trigger)
    {
      var encTrigger := EncodeTrigger(trigger, typeId);
      assert encTrigger[1..] == trigger;
      if encTrigger in triggerRegexes {
        return triggerRegexes[encTrigger];
      }
      exp := compile(trigger);
      triggerRegexes := triggerRegexes[encTrigger := exp];
    }

    /** Whether one trigger of a type fires. */
    method MatchAny(typeId: char, triggers: TriggerMap, text: string) returns (matched: bool)
      requires Valid()
      modifies this`triggerRegexes
      ensures Valid()
      ensures matched <==> exists trigger :: Fires(compile, triggers, text, trigger)
    {
      var remaining := triggers;
      while remaining != map[]
        invariant Valid() && remaining.Keys <= triggers.Keys
        invariant forall t <- triggers :: t !in remaining ==> !Fires(compile, triggers, text, t)
        decreases |remaining|
      {
        var trigger :| trigger in remaining;
        var exp := GetTriggerRegexp(typeId, trigger);
        if exp.matches(text) {
          assert Fires(compile, triggers, text, trigger);
          return true;
        }
        remaining := remaining - {trigger};
      }
      matched := false;
    }

    /** matchTriggers: some trigger that the channel sees matches. */
    method MatchTriggers(channel: string, text: string) returns (matched: bool)
      requires Valid() && triggerStorer.Valid() && KnownKeys(triggerStorer.Contents())
      modifies this`triggerRegexes
      ensures Valid()
      ensures matched <==> SomeMatches(compile, triggerStorer.Contents(), channel, text)
    {
      var byType := GetTriggersByType(channel);
      SomeFires(compile, triggerStorer.Contents(), channel, byType, text);
      var remaining := byType.Keys;
      while remaining != {}
        invariant Valid() && remaining <= byType.Keys
        invariant forall t <- byType.Keys - remaining, trigger :: !Fires(compile, byType[t], text, trigger)
      {
        var typeId :| typeId in remaining;
        var found := MatchAny(typeId, byType[typeId], text);
        if found {
          return true;
        }
        remaining := remaining - {typeId};
      }
      matched := false;
    }

    /** At most one standard trigger answers: some one that fires, if any does. */
    method ReactOnStandardTriggers(text: string, triggers: TriggerMap) returns (answer: Option<string>)
      requires Valid()
      modifies this`triggerRegexes
      ensures Valid() && AnswersWith(compile, triggers, text, answer)
    {
      var remaining := triggers;
      while remaining != map[]
        invariant Valid() && remaining.Keys <= triggers.Keys
        invariant forall t <- triggers :: t !in remaining ==> !Fires(compile, triggers, text, t)
        decreases |remaining|
      {
        var trigger :| trigger in remaining;
        var exp := GetTriggerRegexp(STANDARD_TRIGGER_TYPE_ID, trigger);
        if exp.matches(text) {
          assert Fires(compile, triggers, text, trigger);
          return Some(triggers[trigger]);
        }
        remaining := remaining - {trigger};
      }
      answer := None;
    }

    method ReactIfFires(text: string, triggers: TriggerMap, trigger: string, reactor: EmojiReactor)
      requires Valid() && trigger in triggers
      modifies this`triggerRegexes, reactor
      ensures Valid()
      ensures reactor.added == old(reactor.added) + ReactionTo(compile, triggers, text, trigger)
    {
      var exp := GetTriggerRegexp(EMOJI_TRIGGER_TYPE_ID, trigger);
      if exp.matches(text) {
        AddAll(reactor, Emoji.ParseEmojiList(triggers[trigger]));
      }
    }

    /** All emoji triggers that fire react, each once, in the order of the map. */
    method ReactOnEmojiTriggers(text: string, triggers: TriggerMap, reactor: EmojiReactor)
      requires Valid()
      modifies this`triggerRegexes, reactor
      ensures Valid()
      ensures old(reactor.added) <= reactor.added
      ensures AreReactions(compile, triggers, text, reactor.added[|old(reactor.added)|..])
    {
      var remaining := triggers.Keys;
      ghost var emojis: seq<string> := [];
      NoReactionsYet(compile, triggers, text);
      while remaining != {}
        invariant Valid() && remaining <= triggers.Keys
        invariant AreReactionsBut(compile, triggers, text, remaining, emojis)
        invariant reactor.added == old(reactor.added) + emojis
      {
        var trigger :| trigger in remaining;
        ghost var more := ReactionsMore(compile, triggers, text, remaining, emojis, trigger);
        ConcatAssociates(old(reactor.added), emojis, ReactionTo(compile, triggers, text, trigger));
        ReactIfFires(text, triggers, trigger, reactor);
        emojis := more;
        remaining := remaining - {trigger};
      }
      assert reactor.added[|old(reactor.added)|..] == emojis;
    }

    /** Both kinds of triggers can react to one message. */
    method ReactOnTriggers(channel: string, text: string, reactor: EmojiReactor) returns (answer: Option<string>)
      requires Valid() && triggerStorer.Valid() && KnownKeys(triggerStorer.Contents())
      modifies this`triggerRegexes, reactor
      ensures Valid() && old(reactor.added) <= reactor.added
      ensures var silos := triggerStorer.Contents();
        exists byType | SplitByType(byType, silos, channel) ::
          && AreReactions(compile, byType[EMOJI_TRIGGER_TYPE_ID], text, reactor.added[|old(reactor.added)|..])
          && AnswersWith(compile, byType[STANDARD_TRIGGER_TYPE_ID], text, answer)
    {
      var byType := GetTriggersByType(channel);
      ReactOnEmojiTriggers(text, byType[EMOJI_TRIGGER_TYPE_ID], reactor);
      answer := ReactOnStandardTriggers(text, byType[STANDARD_TRIGGER_TYPE_ID]);
    }
  }
}
