/** Answer options and where an answer ends up being posted. */
module Answers {
  import opened Text

  const THREADED_REPLY_OPT := "threadedReply"
  const BROADCAST_OPT := "broadcast"
  const THREAD_TIMESTAMP := "threadTimestamp"
  const EPHEMERAL_ANSWER_TO_OPT := "ephemeralMsgToUserID"

  type SendOptions = map<string, string>

  datatype AnswerOption =
    | InThread
    | InExistingThread(threadTimestamp: string)
    | InThreadWithBroadcast
    | InThreadWithoutBroadcast
    | WithoutThreading
    | Ephemeral(userId: string)
  {
    function Write(sendOpts: SendOptions): SendOptions {
      match this
      case InThread => sendOpts[THREADED_REPLY_OPT := "true"]
      case InExistingThread(ts) => sendOpts[THREADED_REPLY_OPT := "true"][THREAD_TIMESTAMP := ts]
      case InThreadWithBroadcast => sendOpts[THREADED_REPLY_OPT := "true"][BROADCAST_OPT := "true"]
      case InThreadWithoutBroadcast => sendOpts[THREADED_REPLY_OPT := "true"][BROADCAST_OPT := "false"]
      case WithoutThreading => sendOpts[THREADED_REPLY_OPT := "false"]
      case Ephemeral(userId) => sendOpts[EPHEMERAL_ANSWER_TO_OPT := userId]
    }
  }

  /** The value an option gives to a setting, if it writes it. */
  function ValueFor(o: AnswerOption, name: string): Option<string> {
    match o
    case InThread => if name == THREADED_REPLY_OPT then Some("true") else None
    case InExistingThread(ts) =>
      if name == THREADED_REPLY_OPT then Some("true") else if name == THREAD_TIMESTAMP then Some(ts) else None
    case InThreadWithBroadcast => if name in {THREADED_REPLY_OPT, BROADCAST_OPT} then Some("true") else None
    case InThreadWithoutBroadcast =>
      if name == THREADED_REPLY_OPT then Some("true") else if name == BROADCAST_OPT then Some("false") else None
    case WithoutThreading => if name == THREADED_REPLY_OPT then Some("false") else None
    case Ephemeral(userId) => if name == EPHEMERAL_ANSWER_TO_OPT then Some(userId) else None
  }

  /** The option at position i writes the setting and no later one does. */
  predicate IsLastWriter(opts: seq<AnswerOption>, i: nat, name: string) {
    i < |opts| && ValueFor(opts[i], name).Some? && forall j | i < j < |opts| :: ValueFor(opts[j], name).None?
  }

  /** A setting is present exactly when some option writes it, with the value of the last one that does. */
  ghost predicate LastWritersWin(opts: seq<AnswerOption>, sendOpts: SendOptions) {
    && (forall name :: name in sendOpts <==> exists o <- opts :: ValueFor(o, name).Some?)
    && (forall i: nat, name | IsLastWriter(opts, i, name) ::
          name in sendOpts && Some(sendOpts[name]) == ValueFor(opts[i], name))
  }

  lemma WriteIs(o: AnswerOption, sendOpts: SendOptions, name: string)
    ensures name in o.Write(sendOpts) <==> name in sendOpts || ValueFor(o, name).Some?
    ensures name in o.Write(sendOpts) ==>
      o.Write(sendOpts)[name] == if ValueFor(o, name).Some? then ValueFor(o, name).value else sendOpts[name]
  {
    assert THREADED_REPLY_OPT[0] != BROADCAST_OPT[0] && |THREADED_REPLY_OPT| != |THREAD_TIMESTAMP|;
  }

  lemma {:induction false} AppliedWritten(opts: seq<AnswerOption>, name: string)
    ensures name in Applied(opts) <==> exists o <- opts :: ValueFor(o, name).Some?
  {
    if opts != [] {
      var before, last := opts[..|opts| - 1], opts[|opts| - 1];
      AppliedWritten(before, name);
      WriteIs(last, Applied(before), name);
      assert forall o :: o in opts <==> o in before || o == last;
    }
  }

  lemma {:induction false} AppliedLast(opts: seq<AnswerOption>, i: nat, name: string)
    requires IsLastWriter(opts, i, name)
    ensures name in Applied(opts) && Some(Applied(opts)[name]) == ValueFor(opts[i], name)
  {
    var last := |opts| - 1;
    WriteIs(opts[last], Applied(opts[..last]), name);
    if i < last {
      AppliedLast(opts[..last], i, name);
    }
  }

  lemma AppliedLastWriters(opts: seq<AnswerOption>)
    ensures LastWritersWin(opts, Applied(opts))
  {
    forall name
      ensures name in Applied(opts) <==> exists o <- opts :: ValueFor(o, name).Some?
    {
      AppliedWritten(opts, name);
    }
    forall i: nat, name | IsLastWriter(opts, i, name)
      ensures name in Applied(opts) && Some(Applied(opts)[name]) == ValueFor(opts[i], name)
    {
      AppliedLast(opts, i, name);
    }
  }

  /** The options read from the last one down: a later option wins. */
  function Applied(opts: seq<AnswerOption>): SendOptions {
    if opts == [] then map[] else opts[|opts| - 1].Write(Applied(opts[..|opts| - 1]))
  }

  method ApplyAnswerOpts(opts: seq<AnswerOption>) returns (sendOptions: SendOptions)
    ensures sendOptions == Applied(opts) && LastWritersWin(opts, sendOptions)
  {
    sendOptions := map[];
    for i := 0 to |opts|
      invariant sendOptions == Applied(opts[..i])
    {
      assert opts[..i + 1][..i] == opts[..i];
      sendOptions := opts[i].Write(sendOptions);
    }
    assert opts[..|opts|] == opts;
    AppliedLastWriters(opts);
  }

  /** cast.ToBool on a string, the empty string standing for a missing option. */
  predicate IsTrue(sendOpts: SendOptions, name: string) {
    name in sendOpts && sendOpts[name] in {"1", "t", "T", "TRUE", "true", "True"}
  }

  datatype ThreadingConfig = ThreadingConfig(threadedReplies: bool, broadcastThreadedReplies: bool)

  datatype Placement = Placement(thread: Option<string>, broadcast: bool, ephemeralTo: Option<string>)

  /** The delivery part of sendNewMessage. */
  function Place(config: ThreadingConfig, sendOpts: SendOptions, defaultThreadTs: string): Placement {
    var threaded := config.threadedReplies || IsTrue(sendOpts, THREADED_REPLY_OPT);
    var explicit := if THREAD_TIMESTAMP in sendOpts then sendOpts[THREAD_TIMESTAMP] else "";
    Placement(
      if !threaded then None else Some(if explicit != "" then explicit else defaultThreadTs),
      threaded && (config.broadcastThreadedReplies || IsTrue(sendOpts, BROADCAST_OPT)),
      if EPHEMERAL_ANSWER_TO_OPT in sendOpts then Some(sendOpts[EPHEMERAL_ANSWER_TO_OPT]) else None)
  }

  lemma PlaceInThread(config: ThreadingConfig, sendOpts: SendOptions, defaultThreadTs: string, ts: string)
    requires THREADED_REPLY_OPT in sendOpts && sendOpts[THREADED_REPLY_OPT] == "true"
    requires THREAD_TIMESTAMP in sendOpts && sendOpts[THREAD_TIMESTAMP] == ts
    ensures ts != "" ==> Place(config, sendOpts, defaultThreadTs).thread == Some(ts)
  {
  }

  lemma PlaceUnthreaded(config: ThreadingConfig, sendOpts: SendOptions, defaultThreadTs: string)
    requires THREADED_REPLY_OPT in sendOpts && sendOpts[THREADED_REPLY_OPT] == "false"
    ensures Place(config, sendOpts, defaultThreadTs).thread.Some? <==> config.threadedReplies
  {
    assert "false"[0] == 'f';
  }

  /** An answer is ephemeral when one of its options says so, wherever it stands in the list. */
  predicate IsEphemeral(opts: seq<AnswerOption>) {
    exists o <- opts :: o.Ephemeral?
  }

  lemma {:induction false} EphemeralIffOption(opts: seq<AnswerOption>)
    ensures EPHEMERAL_ANSWER_TO_OPT in Applied(opts) <==> IsEphemeral(opts)
  {
    if opts != [] {
      var last := |opts| - 1;
      EphemeralIffOption(opts[..last]);
      assert opts == opts[..last] + [opts[last]];
    }
  }
}
