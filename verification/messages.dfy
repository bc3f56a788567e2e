/** Slack events and the identifiers slackscot derives from them. */
module Messages {
  import opened Text

  /** A message of the workspace: the channel and the timestamp identify it. */
  datatype MsgId = MsgId(channel: string, timestamp: string) {
    // Ephemeral messages come back without a usable id and can be neither updated nor deleted.
    predicate IsModifiable() {
      channel != "" && timestamp != ""
    }
  }

  datatype SubMessage = SubMessage(timestamp: string, user: string, text: string)

  datatype MessageEvent = MessageEvent(
    eventType: string, subType: string, replyTo: int,
    channel: string, timestamp: string, threadTimestamp: string,
    user: string, botId: string, text: string,
    deletedTimestamp: string, subMessage: Option<SubMessage>)
  {
    function OwnId(): MsgId {
      MsgId(channel, timestamp)
    }

    /** getOriginalMessageID. */
    function OriginalId(): MsgId {
      MsgId(channel, if subMessage.Some? then subMessage.value.timestamp else timestamp)
    }

    function DeletedId(): MsgId {
      MsgId(channel, deletedTimestamp)
    }
  }

  /** The branch of processMessages an event takes. */
  datatype Kind = New | Changed | Deleted | Ignored

  function KindOf(e: MessageEvent): Kind {
    if e.replyTo > 0 || e.eventType != "message" then Ignored
    else if e.subType == "message_deleted" then Deleted
    else if e.subType == "message_changed" then Changed
    else if e.subType == "message_replied" then Ignored
    else New
  }

  /** A changed event carries the new text in its sub message; without one the bot would crash. */
  predicate WellFormed(e: MessageEvent) {
    KindOf(e) == Changed ==> e.subMessage.Some?
  }
}
