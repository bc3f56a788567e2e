/**
 Reconciliation of the bot's responses with the messages that trigger them.

 The chat service is an oracle: a Script fixes, for one handled event, what every driver call answers.
 A Job is an event handler in progress; Complete says what the world is once the job is done. Slackscot is the bot:
 its methods look up, send, update and delete responses one driver call at a time and are proved to do just that.
 */
module Reconcile {
  import opened Text
  import opened Messages
  import opened Actions

  /** The responses to one message: plugin action to the id of the response. */
  type Entry = map<string, MsgId>

  /** The triggering message cache. */
  type Cache = map<MsgId, Entry>

  /** A message posted by the bot: its text, whether users still see it, and the deletes issued for it. */
  datatype Post = Post(text: string, live: bool, deletes: nat)

  type Posts = map<MsgId, Post>

  datatype World = World(cache: Cache, posts: Posts)

  // ---- The chat service ----

  datatype SendReply = SendFailed | Posted(id: MsgId) {
    predicate Trackable() {
      Posted? && id.IsModifiable()
    }
  }

  datatype UpdateReply = UpdateFailed | InPlace | Moved(id: MsgId)

  /** The answers of the driver while one event is handled: by position in the list of outgoing messages. */
  datatype Script = Script(sends: nat -> SendReply, updates: nat -> UpdateReply, deleted: MsgId -> bool)

  function Sent(posts: Posts, reply: SendReply, text: string): Posts {
    if reply.Trackable() then posts[reply.id := Post(text, true, 0)] else posts
  }

  function Updated(posts: Posts, r: MsgId, reply: UpdateReply, text: string): Posts {
    match reply
    case UpdateFailed => posts
    case InPlace => if r in posts then posts[r := posts[r].(text := text)] else posts
    case Moved(id) =>
      (if r in posts then posts[r := posts[r].(live := false)] else posts)[id := Post(text, true, 0)]
  }

  function UpdatedId(r: MsgId, reply: UpdateReply): MsgId {
    if reply.Moved? then reply.id else r
  }

  function Retracted(posts: Posts, r: MsgId, success: bool): Posts {
    if r in posts then
      posts[r := Post(posts[r].text, posts[r].live && !success, posts[r].deletes + 1)]
    else posts
  }

  class ChatDriver {
    var posts: Posts

    method SendMessage(text: string, reply: SendReply) returns (id: Option<MsgId>)
      modifies this
      ensures posts == Sent(old(posts), reply, text)
      ensures id == if reply.Posted? then Some(reply.id) else None
    {
      if reply.SendFailed? {
        return None;
      }
      if reply.id.IsModifiable() {
        posts := posts[reply.id := Post(text, true, 0)];
      }
      id := Some(reply.id);
    }

    method UpdateMessage(r: MsgId, text: string, reply: UpdateReply) returns (id: Option<MsgId>)
      modifies this
      ensures posts == Updated(old(posts), r, reply, text)
      ensures id == if reply.UpdateFailed? then None else Some(UpdatedId(r, reply))
    {
      match reply
      case UpdateFailed =>
        id := None;
      case InPlace =>
        if r in posts {
          posts := posts[r := posts[r].(text := text)];
        }
        id := Some(r);
      case Moved(newId) =>
        if r in posts {
          posts := posts[r := posts[r].(live := false)];
        }
        posts := posts[newId := Post(text, true, 0)];
        id := Some(newId);
    }

    method DeleteMessage(r: MsgId, success: bool)
      modifies this
      ensures posts == Retracted(old(posts), r, success)
    {
      if r in posts {
        posts := posts[r := Post(posts[r].text, posts[r].live && !success, posts[r].deletes + 1)];
      }
    }
  }

  // ---- A handler in progress ----

  /**
   The first `at` outgoing messages are dealt with; `stale` holds the previous responses not updated so far and
   `kept` the responses to keep. `sweeping` jobs started from a cached entry, which goes when nothing is kept.
   */
  datatype Job = Job(key: MsgId, outs: seq<OutgoingMessage>, script: Script,
                     at: nat, stale: Entry, kept: Entry, sweeping: bool)

  datatype Progress = Progress(job: Job, posts: Posts)

  predicate Answering(job: Job) {
    job.at < |job.outs|
  }

  /** One turn of the loop over the outgoing messages: an update if the action answered before, a send if not. */
  function AnswerOne(p: Progress): Progress
    requires Answering(p.job)
  {
    var job, posts := p.job, p.posts;
    var o := job.outs[job.at];
    var next := job.(at := job.at + 1);
    if o.pluginActionId in job.stale then
      var r, reply := job.stale[o.pluginActionId], job.script.updates(job.at);
      Progress(
        if reply.UpdateFailed? then next
        else next.(stale := job.stale - {o.pluginActionId},
                   kept := job.kept[o.pluginActionId := UpdatedId(r, reply)]),
        Updated(posts, r, reply, o.text))
    else
      var reply := job.script.sends(job.at);
      Progress(
        if reply.Trackable() then next.(kept := job.kept[o.pluginActionId := reply.id]) else next,
        Sent(posts, reply, o.text))
  }

  function AnswerAll(p: Progress): Progress
    requires p.job.at <= |p.job.outs|
    decreases |p.job.outs| - p.job.at
  {
    if Answering(p.job) then AnswerAll(AnswerOne(p)) else p
  }

  /** The number of stale actions whose response is this message. */
  function Uses(stale: Entry, id: MsgId): nat {
    |set a | a in stale && stale[a] == id|
  }

  /** All stale responses deleted, in whatever order. */
  function RetractAll(posts: Posts, stale: Entry, script: Script): Posts {
    map id | id in posts ::
      if Uses(stale, id) == 0 then posts[id]
      else Post(posts[id].text, posts[id].live && !script.deleted(id), posts[id].deletes + Uses(stale, id))
  }

  function CacheAfter(job: Job, cache: Cache): Cache {
    if job.kept != map[] then cache[job.key := job.kept]
    else if job.sweeping then cache - {job.key}
    else cache
  }

  /** The world once the job is done. */
  function Complete(job: Job, w: World): World
    requires job.at <= |job.outs|
  {
    var p := AnswerAll(Progress(job, w.posts));
    World(CacheAfter(p.job, w.cache), RetractAll(p.posts, p.job.stale, job.script))
  }

  /** The job an event gives rise to, looking up the cache. */
  function Start(bot: Bot, cache: Cache, e: MessageEvent, script: Script): (job: Option<Job>)
    ensures job.Some? ==> job.value.at == 0 && job.value.script == script
  {
    match KindOf(e)
    case Ignored => None
    case New => Some(Job(e.OwnId(), Routed(bot, e), script, 0, map[], map[], false))
    case Changed =>
      if e.subMessage.None? then None
      else
        var age := bot.ageOf(e.timestamp, e.subMessage.value.timestamp);
        var original := e.OriginalId();
        if age.None? || age.value > bot.maxAge then None
        else if original in cache then
          Some(Job(original, Routed(bot, e), script, 0, cache[original], map[], true))
        else Some(Job(e.OwnId(), Routed(bot, e), script, 0, map[], map[], false))
    case Deleted =>
      if e.DeletedId() in cache then Some(Job(e.DeletedId(), [], script, 0, cache[e.DeletedId()], map[], true))
      else None
  }

  /** An event handled from start to end. */
  function Handle(bot: Bot, w: World, e: MessageEvent, script: Script): World {
    match Start(bot, w.cache, e, script)
    case None => w
    case Some(job) => Complete(job, w)
  }

  // ---- Deleting the stale responses one at a time ----

  lemma UsesWithout(stale: Entry, a: string, id: MsgId)
    requires a in stale
    ensures Uses(stale, id) == Uses(stale - {a}, id) + if id == stale[a] then 1 else 0
  {
    var all := set b | b in stale && stale[b] == id;
    var rest := set b | b in stale - {a} && (stale - {a})[b] == id;
    assert rest == all - {a};
  }

  lemma RetractOne(posts: Posts, stale: Entry, script: Script, a: string)
    requires a in stale
    ensures RetractAll(Retracted(posts, stale[a], script.deleted(stale[a])), stale - {a}, script)
      == RetractAll(posts, stale, script)
  {
    var r := stale[a];
    var posts' := Retracted(posts, r, script.deleted(r));
    forall id | id in posts
      ensures Uses(stale, id) == Uses(stale - {a}, id) + if id == r then 1 else 0
    {
      UsesWithout(stale, a, id);
    }
    assert posts'.Keys == posts.Keys;
  }

  lemma RetractNone(posts: Posts, script: Script)
    ensures RetractAll(posts, map[], script) == posts
  {
  }

  // ---- The methods of the bot ----

  class Slackscot {
    const bot: Bot
    var triggeringMsgToResponse: Cache

    constructor (bot: Bot)
      ensures this.bot == bot && triggeringMsgToResponse == map[]
    {
      this.bot := bot;
      triggeringMsgToResponse := map[];
    }

    ghost function State(driver: ChatDriver): World
      reads this, driver
    {
      World(triggeringMsgToResponse, driver.posts)
    }

    method SendOutgoingMessages(driver: ChatDriver, incomingMessageId: MsgId, outMsgs: seq<OutgoingMessage>,
                                script: Script)
      modifies this, driver
      ensures State(driver)
        == Complete(Job(incomingMessageId, outMsgs, script, 0, map[], map[], false), old(State(driver)))
    {
      var newResponseByActionId: Entry := map[];
      ghost var job := Job(incomingMessageId, outMsgs, script, 0, map[], map[], false);
      for i := 0 to |outMsgs|
        invariant triggeringMsgToResponse == old(triggeringMsgToResponse)
        invariant AnswerAll(Progress(job.(at := i, kept := newResponseByActionId), driver.posts))
          == AnswerAll(Progress(job, old(driver.posts)))
      {
        var id := driver.SendMessage(outMsgs[i].text, script.sends(i));
        if id.Some? && id.value.IsModifiable() {
          newResponseByActionId := newResponseByActionId[outMsgs[i].pluginActionId := id.value];
        }
      }
      RetractNone(driver.posts, script);
      if |newResponseByActionId| > 0 {
        triggeringMsgToResponse := triggeringMsgToResponse[incomingMessageId := newResponseByActionId];
      }
    }

    method ProcessNewMessage(driver: ChatDriver, m: MessageEvent, script: Script)
      modifies this, driver
      ensures State(driver)
        == Complete(Job(m.OwnId(), Routed(bot, m), script, 0, map[], map[], false), old(State(driver)))
    {
      var outMsgs := RouteMessage(bot, m);
      SendOutgoingMessages(driver, m.OwnId(), outMsgs, script);
    }

    method ProcessUpdatedMessageWithCachedResponses(
      driver: ChatDriver, m: MessageEvent, editedMsgId: MsgId, responses: Entry, script: Script)
      modifies this, driver
      ensures State(driver)
        == Complete(Job(editedMsgId, Routed(bot, m), script, 0, responses, map[], true), old(State(driver)))
    {
      var newResponseByActionId: Entry := map[];
      var cachedResponses := responses;
      var outMsgs := RouteMessage(bot, m);
      ghost var job := Job(editedMsgId, outMsgs, script, 0, responses, map[], true);
      for i := 0 to |outMsgs|
        invariant triggeringMsgToResponse == old(triggeringMsgToResponse)
        invariant AnswerAll(Progress(job.(at := i, stale := cachedResponses, kept := newResponseByActionId),
                                     driver.posts))
          == AnswerAll(Progress(job, old(driver.posts)))
      {
        var o := outMsgs[i];
        if o.pluginActionId in cachedResponses {
          var r := cachedResponses[o.pluginActionId];
          var id := driver.UpdateMessage(r, o.text, script.updates(i));
          if id.Some? {
            newResponseByActionId := newResponseByActionId[o.pluginActionId := id.value];
            cachedResponses := cachedResponses - {o.pluginActionId};
          }
        } else {
          var id := driver.SendMessage(o.text, script.sends(i));
          if id.Some? && id.value.IsModifiable() {
            newResponseByActionId := newResponseByActionId[o.pluginActionId := id.value];
          }
        }
      }
      DeleteResponses(driver, cachedResponses, script);
      if |newResponseByActionId| > 0 {
        triggeringMsgToResponse := triggeringMsgToResponse[editedMsgId := newResponseByActionId];
      } else {
        triggeringMsgToResponse := triggeringMsgToResponse - {editedMsgId};
      }
    }

    /** The range loop that deletes the responses of a map, in the map's arbitrary order. */
    method DeleteResponses(driver: ChatDriver, responses: Entry, script: Script)
      modifies driver
      ensures driver.posts == RetractAll(old(driver.posts), responses, script)
    {
      var remaining := responses;
      while remaining != map[]
        invariant RetractAll(driver.posts, remaining, script) == RetractAll(old(driver.posts), responses, script)
        decreases |remaining|
      {
        var a :| a in remaining;
        RetractOne(driver.posts, remaining, script, a);
        driver.DeleteMessage(remaining[a], script.deleted(remaining[a]));
        remaining := remaining - {a};
      }
      RetractNone(driver.posts, script);
    }

    method ProcessUpdatedMessage(driver: ChatDriver, m: MessageEvent, script: Script)
      requires KindOf(m) == Changed && WellFormed(m)
      modifies this, driver
      ensures State(driver) == Handle(bot, old(State(driver)), m, script)
    {
      var editedMsgId := m.OriginalId();
      var msgAge := bot.ageOf(m.timestamp, m.subMessage.value.timestamp);
      if msgAge.None? {
        return;
      }
      if msgAge.value > bot.maxAge {
        return;
      }
      if editedMsgId in triggeringMsgToResponse {
        ProcessUpdatedMessageWithCachedResponses(
          driver, m, editedMsgId, triggeringMsgToResponse[editedMsgId], script);
      } else {
        var outMsgs := RouteMessage(bot, m);
        SendOutgoingMessages(driver, m.OwnId(), outMsgs, script);
      }
    }

    method ProcessDeletedMessage(driver: ChatDriver, msgEvent: MessageEvent, script: Script)
      requires KindOf(msgEvent) == Deleted
      modifies this, driver
      ensures State(driver) == Handle(bot, old(State(driver)), msgEvent, script)
    {
      var deletedMessageId := msgEvent.DeletedId();
      if deletedMessageId in triggeringMsgToResponse {
        DeleteResponses(driver, triggeringMsgToResponse[deletedMessageId], script);
        triggeringMsgToResponse := triggeringMsgToResponse - {deletedMessageId};
      }
    }

    /** One turn of the loop of processMessages. */
    method ProcessMessage(driver: ChatDriver, msg: MessageEvent, script: Script)
      requires WellFormed(msg)
      modifies this, driver
      ensures State(driver) == Handle(bot, old(State(driver)), msg, script)
    {
      var isReply := msg.replyTo > 0;
      if !isReply && msg.eventType == "message" {
        if msg.subType == "message_deleted" {
          ProcessDeletedMessage(driver, msg, script);
        } else if msg.subType == "message_changed" {
          ProcessUpdatedMessage(driver, msg, script);
        } else if msg.subType != "message_replied" {
          ProcessNewMessage(driver, msg, script);
        }
      }
    }
  }
}
