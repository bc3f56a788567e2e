# slackscot, modelled and verified

Slackscot answers Slack messages with plugins. It follows its own answers afterwards: when somebody edits a message
the answers to it are updated, completed or withdrawn, and when a message is deleted its answers go too. Several
workers do this at once, one per queue, with a router in front of them. Beside it stand a small stack of stores and
two plugins that keep state in them: karma and triggers.

This project states what that code promises, in Dafny, and proves it. Where the code keeps less than its
documentation says, the project names an input for which it does not and proves exactly when it does.

## What is modelled

- **Routing a message to plugins** (`messages.dfy`, `answers.dfy`, `actions.dfy`): the normalised message, commands
  and hear actions, action ids, answer options, threads. Plugins are arbitrary functions of the message.
- **Reconciling responses** (`reconcile.dfy`): the handlers of new, edited and deleted messages as methods of a
  class that update the cache and call a chat driver. A `Script` is the driver's answers to one event, arbitrary
  failures and ephemeral answers included. A `Job` is a handler in progress; `Complete` is what it leads to, and every
  method is proved to do just that.
- **What reconciliation keeps** (`runs.dfy`, `editchain.dfy`): the invariant of every run with failing drivers and a
  cache that evicts at will; the conservation of responses in one edit; and, for a driver that works, when exactly
  users see the answers to the latest text and no others.
- **The router** (`routing.dfy`): the test for powers of two on 64-bit integers, the mask, the queue of a message.
- **Concurrent dispatch** (`dispatch.dfy`): a transition system of the main loop, the bounded queues, the workers, the
  shutdown and the main loop's other exits. Handlers are not atomic: the cache lookup, each driver call and the cache
  write are separate steps that interleave with those of the other workers.
- **What its runs keep** (`overtaking.dfy`, `confluence.dfy`, `agreement.dfy`, `bystanders.dfy`, `deletions.dfy`,
  `doubledeletes.dfy`, `responses.dfy`, `honesty.dfy`).
- **Runs that go wrong** (`counterexamples.dfy`) and one that meets all conditions (`witnesses.dfy`), on concrete inputs.
- **The stores** (`silomaps.dfy`, `splitting.dfy`, `leveldb.dfy`, `storage.dfy`): LevelDB's flat byte strings as a map
  of maps, the datastore with its retry, the write-through copy in memory.
- **Karma** (`karma.dfy`, `ranking.dfy`, `leaderboard.dfy`): the ledger, the merge over all channels, the ranked lists.
- **Triggers** (`triggers.dfy`, `emoji.dfy`): triggers of a channel over global ones, the reactions to a message, the
  cache of compiled expressions, the emoji codecs.
- `text.dfy`: options, decimal numbers, prefixes.

## Main results

1. *Run invariant.* Whatever the driver refuses and the cache evicts, no response is in two cache slots, no cached
   entry is empty, no response is deleted twice and no deleted response stays cached (`Runs.RunInvariant`).
2. *Conservation.* One edit updates and keeps each earlier response or deletes it exactly once, and the new entry
   holds exactly the calls that succeeded (`Runs.EditConserves`).
3. *Exact agreement, if and only if.* After a message and its edits users see exactly the latest answers if and only
   if no version before the last one answers again after a version that left nothing to track; the deletion leaves
   nothing if and only if that holds of all versions (`EditChain.ChainAgrees`). The same holds when the chain is
   handled by concurrent workers among the events of other messages (`Agreement.ChainAgreesAmongOthers`,
   `Deletions.DeletionAgreesAmongOthers`).
4. *Confluence.* If events of different queues are about different messages and get different ids from the driver,
   every interleaving of the workers' steps ends with the cache and the posts of the sequential bot
   (`Confluence.Confluent`). Streams of new messages and edits meet that condition
   (`Confluence.NewAndChangedConfluent`); streams with deletions need not, unless there is one queue.
5. *Concurrent run invariant.* If events of different queues are about different messages, then in every state of every
   run, whatever handlers are at work and whatever the cache evicts between any two of their steps, no response is in
   two cache slots and none is deleted twice (`Responses.EveryStateKeepsResponses`).
6. *Order, if and only if.* A later event can begin before an earlier one is finished exactly when they are in
   different queues and the earlier one's queue can hold what arrives for it in between (`Overtaking.OvertakesIff`).
   A complete run can leave an answer to a deleted message exactly when the deletion can overtake the last version in
   this way or the bot loses track of the versions even in order (`Deletions.AnswerLeftIff`, `Deletions.EditedLeftIff`),
   and some run deletes an answer twice exactly when the deletion can overtake an edit that leaves an answer without an
   update (`DoubleDeletes.DeletedTwiceIff`).
7. *Shutdown.* No schedule goes on for ever, nothing is sent on a closed queue, and after the goodbye every event is
   handled once (`Dispatch.Graceful`, `Dispatch.NoSendOnClosed`, `Dispatch.EachHandledOnce`).
8. *Stores.* The flat store answers as a map of maps (`LevelDb.RunRefines`), decoding undoes encoding exactly for
   parts free of the delimiter (`LevelDb.DecodeEncode`), and memory agrees with storage (`InMemoryDb.AgreeUnlessFailed`,
   `InMemoryDb.MirrorsExactly`).
9. *Plugins.* Karma is a balanced ledger (`Karma.LedgerBalances`), its rankings are unique
   (`Ranking.RankingIsUnique`) and never fail on it (`Leaderboard.ListsNeverFail`), a channel sees its own triggers over
   global ones (`Triggers.RunScopes`), and what Slack shows of an emoji reaction encodes to what is stored
   (`Emoji.RenderedEncodesAgain`).

## Where the code and its documentation differ

The model follows the code.

- An edit of a message that is not in the cache stores its responses under the edit's own timestamp
  (slackscot.go:761, slackscot.go:783), so the next edit does not find them.
  `Counterexamples.EditAfterSilenceAnswersTwice` shows a channel left with two answers of one action;
  `EditChain.ChainAgrees` says when this does not happen.
- doc.go:8-9 promises that deletions are processed in order with the message they refer to. A deletion is routed by
  its own timestamp, not by the timestamp of the message it deletes (slackscot.go:728-734, slackscot.go:844).
  `Counterexamples.DeletionOvertakes` shows the answer that stays; `Overtaking.OvertakesIff` says exactly when such an
  overtaking can happen, `Deletions.AnswerLeftIff`, `Deletions.MessageLeftIff` and `Deletions.EditedLeftIff` exactly when
  an answer can stay. `Counterexamples.DeletedTwice` shows a response that an edit and a deletion both delete;
  `DoubleDeletes.DeletedTwiceIff` says exactly when that can happen. With one queue no event overtakes another.
- The delimiter of silo and key is meant to be no valid character, but is the character U+00DA, bytes C3 9A
  (store/leveldb.go:21). A trigger on that character is a key that holds it: `StoreCounterexamples.AccentedTriggerFails`
  and, for a silo, `StoreCounterexamples.AccentedSiloFails`. `LevelDb.DecodeEncode`, `LevelDb.DelimiterBreaksSilo` and
  `LevelDb.DelimiterBreaksScan` say exactly when keys decode and scans work.
- The test for a power of two accepts the least 64-bit integer (routing.go:84-86). The router crashes for it, as it does
  for powers of two larger than a slice can be and for buffers that no channel can have: `Routing.PowerOfTwoTest`,
  `Routing.NewPartitionRouter`.
- The end of the events channel is meant to shut the bot down gracefully (slackscot.go:517-519), but like invalid
  credentials and an unknown identity it closes no queue and waits for no worker (slackscot.go:543-568). `Abort` is the
  step for all three; `Dispatch.AbortLeavesAll` says what is still handled then.
- A standard trigger with an empty reaction is taken for a missing one when it is to be forgotten
  (plugins/triggerer.go:357, plugins/triggerer.go:448). The command to forget it then deletes the global trigger that
  every other channel sees and leaves the channel's own in place: `StoreCounterexamples.ForgetReachesOthers`. The exact
  conditions are `Triggers.ForgetsUnlessEmpty`, `Triggers.ForgetsPastOwn` and, over runs, `Triggers.IntendedUnlessEmpty`.
- A reset of a channel's karma reports only the outcome of its last delete (plugins/karma.go:270-276).
  `StoreCounterexamples.PartialResetReportsSuccess` is one that reports success and leaves an entry;
  `Karma.ClearReports` says exactly when no order of the deletes can do that.

## Model

| member | source | states |
|---|---|---|
| Answers.ApplyAnswerOpts | answer.go:79-86 | A setting is present exactly when some option writes it, and has the value of the last option that does. |
| Answers.EphemeralIffOption | answer.go:72-86 | The ephemeral setting is present exactly when some option of the list asks for it, wherever it stands. |
| Actions.ActionIdInjective | slackscot.go:628-630 | Plugin name, action type and index can be read back from an action id, whatever characters the name holds. |
| Actions.ActionIdNotDefault | slackscot.go:1024-1031 | No plugin action has the id of the default action. |
| Actions.TryPluginActions | slackscot.go:1088-1120 | The loop gives the answers of exactly the matching actions with an answer, in order, each under its own id. |
| Actions.TriggeredDistinct | slackscot.go:1088-1120 | The answers of one plugin have distinct ids, all of them ids of its own actions. |
| Actions.RouteMessage | slackscot.go:979-1021 | The loops over the plugins compute the routed answers of the specification, the default answer included. |
| Actions.FirstAnswersDistinct | slackscot.go:999-1018 | With distinct plugin names, the answers of all plugins together have distinct ids. |
| Actions.RoutedIdentity | slackscot.go:979-1021 | Ids are distinct; the bot never answers itself; any other command gets an answer; the default one stands exactly where no plugin answers a command. |
| Actions.LastOptionPlaces | slackscot.go:895-909 | The last option decides on the thread against everything the plugin chose before it. |
| Actions.ThreadPlacement | slackscot.go:1077-1084 | For all options a plugin chooses: a threaded channel message is answered in its thread, a direct message unthreaded unless configuration forces threads, and broadcast needs a thread. |
| Reconcile.RetractOne | slackscot.go:825-829 | Deleting one stale response and then the rest is deleting them all, whatever the order of the map. |
| Reconcile.Slackscot.SendOutgoingMessages | slackscot.go:872-892 | The send loop and the cache write lead to the completion of a job that starts with nothing. |
| Reconcile.Slackscot.ProcessNewMessage | slackscot.go:864-869 | A new message leads to the completion of the job for its routed answers, under its own id. |
| Reconcile.Slackscot.ProcessUpdatedMessageWithCachedResponses | slackscot.go:789-839 | Draining the cached responses while building the new entry, deleting what is left and rewriting the cache leads to the completion of the job that starts from the cached entry. |
| Reconcile.Slackscot.DeleteResponses | slackscot.go:825-829 | Each response of a map is deleted, once per action, in any order. |
| Reconcile.Slackscot.ProcessUpdatedMessage | slackscot.go:760-785 | The age limits and the cache lookup choose the job, or none, that handling an edit completes. |
| Reconcile.Slackscot.ProcessDeletedMessage | slackscot.go:843-861 | A deletion withdraws the cached responses of the deleted message and its entry, or does nothing. |
| Reconcile.Slackscot.ProcessMessage | slackscot.go:678-724 | Each kind of event takes its branch; replies and other events change nothing. |
| Runs.AnswerOneKeepsInv | slackscot.go:795-823 | One turn of the loop, with any outcome of its driver call, keeps the responses of the two maps and of the other entries apart and undeleted. |
| Runs.CompleteKeepsInv | slackscot.go:789-839 | A job that starts from the invariant ends in it. |
| Runs.HandleKeepsInv | slackscot.go:678-724 | Handling any event keeps the invariant, for all driver failures. |
| Runs.RunInvariant | slackscot.go:760-892 | Over every run with failures and evictions: no response in two slots, no empty entry, every cached id came from the driver, at most one delete per response and none for one that stays cached. |
| Runs.AnswerAllKeys | slackscot.go:795-823 | After the loop an action is kept exactly when its call succeeded and is stale exactly when it was cached and not updated. |
| Runs.AnswerAllIds | slackscot.go:795-823 | A successful call stores the id the driver returned under its action. |
| Runs.EditConserves | slackscot.go:789-839 | Each previous response is updated and kept under its action or deleted exactly once and forgotten; the entry holds exactly the successes; other entries and posts stay. |
| EditChain.LatestIff | slackscot.go:795-823 | The reference for what should show: the answers that update a tracked response or are not ephemeral, each with its text. |
| EditChain.CompleteShows | slackscot.go:789-839 | With a working driver a job replaces what its stale map names by the latest lasting answers, with their texts, and touches no other post. |
| EditChain.FollowsIff | slackscot.go:760-785 | Keeping track over a chain, defined step by step, is the absence of a silent version before one that answers. |
| EditChain.ChainAfter | slackscot.go:760-892 | After every prefix of a chain: the entry is what users see while the bot keeps track; once it lost track an unnamed response stays. |
| EditChain.ChainAgrees | slackscot.go:760-892 | Users see exactly the latest answers if and only if no earlier version broke the track, and the deletion leaves none if and only if no version did. |
| EditChain.DeletionLeavesNone | slackscot.go:843-861 | If the entry is what users see, the deletion of the message removes all of it and nothing else. |
| Routing.PowerOfTwoTest | routing.go:84-86 | On 64-bit integers the test accepts exactly the powers of two and the least integer. |
| Routing.HashMask | routing.go:90-98 | The shift loop yields as many low one bits as the integer logarithm of the count. |
| Routing.MaskOfCount | routing.go:90-98 | For a positive count that passes the test the mask is the count less one. |
| Routing.AndMask | routing.go:80 | Masking with k low one bits is reduction modulo the k-th power of two. |
| Routing.PartitionIsModulo | routing.go:71-81 | For every accepted count the masked hash is the hash modulo the count and a valid queue index. |
| Routing.PartitionRouter.constructor | routing.go:38-53 | A new router has empty queues, the asked capacity and the mask of its count. |
| Routing.PartitionRouter.PartitionForMsgId | routing.go:71-81 | Whatever the hasher held before, the queue depends on channel and timestamp only and is in range. |
| Routing.PartitionRouter.RouteMessageEvent | routing.go:57-68 | An attempt at the send appends the event to the queue of its original message id if there is room and changes nothing if not; no other queue changes. |
| Routing.NewPartitionRouter | routing.go:33-53 | For every 64-bit count and any buffer size: a router exactly for a power of two that a slice can hold and a buffer that a channel can have, a crash exactly for the other counts that pass the test, the least integer among them, and an error otherwise. |
| Dispatch.PlanForIsValid | routing.go:57-81 | For every count the router accepts, its choice is a valid queue, the checksum modulo the count, so its runs are runs of the transition system. |
| Dispatch.ReachableInv | slackscot.go:538-588 | In every reachable state each queue's handled, held and waiting events are, in order, those that arrived for it; queues close in index order and workers leave only closed, drained queues. |
| Dispatch.NoSendOnClosed | slackscot.go:554-575 | No event is ever sent on a closed queue. |
| Dispatch.PerMessageOrder | routing.go:16-20 | The handled events about one message are the first ones that arrived, in the order of their arrival, for any capacity and schedule. |
| Dispatch.EachHandledOnce | slackscot.go:569-583 | When the main loop has returned, every event was handled exactly once, by the worker of its queue and in order. |
| Dispatch.Progresses | slackscot.go:538-588 | Until the main loop has returned, or aborted with the workers done, some step other than an abort can be taken. |
| Dispatch.StepLowersRank | slackscot.go:678-724 | Every step, of any worker or the main loop, lowers a well-founded rank. |
| Dispatch.CanReturn | slackscot.go:569-583 | From every state that is not aborted some schedule ends with the return of the main loop. |
| Dispatch.EndsWithin | slackscot.go:538-588 | Every infinite sequence of steps has a finite part that cannot be taken. |
| Dispatch.AbortLeavesAll | slackscot.go:543-568 | If the main loop returns at the end of the events, on invalid credentials or on an unknown identity, the workers still handle every event it had routed, once, and then wait on queues that are never closed. |
| Dispatch.Graceful | slackscot.go:538-588 | In every reachable state some step can be taken until the run is over, no schedule goes on for ever, and unless it aborted some schedule ends with the return. |
| Overtaking.OvertakenOnlyIf | slackscot.go:728-734 | An event that is unfinished when a later one has begun is in another queue, whose buffer holds all its events in between. |
| Overtaking.Overtake | slackscot.go:843-844 | Under that condition there is a run that handles the later event first. |
| Overtaking.OvertakesIff | doc.go:8-9 | Some run begins, or finishes, the later of two events, such as a message and its deletion, before the earlier one is finished if and only if they are in different queues and the earlier one's queue has room for what arrives between. |
| Deletions.SeenInOrder | slackscot.go:678-724 | If a deletion cannot overtake the last version of its message, every complete run shows, of the responses to the versions, what a bot shows that handles just these events one by one. |
| Deletions.AnswerIsLeft | slackscot.go:728-734 | If it can, then among any other events some complete run leaves each answer to the last version that the driver accepted. |
| Deletions.AnswerLeftIff | doc.go:8-9 | Some complete run leaves a response to a deleted message, edited or not, if and only if the deletion can overtake the answered last version or a response is left even when the events are handled one by one. |
| Deletions.MessageLeftIff | doc.go:8-9 | For a message without edits the overtaking alone decides, whatever sends fail. |
| Deletions.EditedLeftIff | doc.go:8-9 | For one with edits and a working driver: the deletion can overtake the last version, or some version answers after one that left nothing to track. |
| Deletions.DeletionAgreesAmongOthers | slackscot.go:843-861 | If the deletion cannot overtake, then after every complete run, in whatever queue it is, no response is left if and only if no version broke the track. |
| DoubleDeletes.NeverTwice | slackscot.go:789-861 | If the deletion cannot overtake the edit, or the edit updates every answer, no answer to the message is deleted twice in any reachable state. |
| DoubleDeletes.BothDelete | slackscot.go:789-861 | If it can, and the edit leaves some answer without an update, some run deletes that answer exactly twice. |
| DoubleDeletes.DeletedTwiceIff | doc.go:8-9 | So for a message, its edit and its deletion among any other events, an answer can be deleted twice if and only if the deletion can overtake the edit and some answer is not updated by it. |
| Confluence.HandleAgree | slackscot.go:760-892 | What a handler does to the keys and ids it can touch depends on these alone. |
| Confluence.HandleElsewhere | slackscot.go:760-892 | A handler changes nothing else. |
| Confluence.SequentialByQueue | routing.go:57-68 | To the messages of one queue the sequential bot looks as if it had handled that queue only. |
| Confluence.Confluent | slackscot.go:678-724 | If events of different queues touch different cache keys and response ids, every complete run ends with the cache and posts of the sequential bot, though handlers interleave call by call. |
| Confluence.NewAndChangedConfluent | routing.go:57-81 | That holds of every stream without deletions in which the own id of an event about another message is no other event's, for every number of queues that the original message id chooses among. |
| Confluence.SingleQueueConfluent | slackscot.go:678-724 | With one queue it holds of every stream, deletions included. |
| Responses.EveryStateKeepsResponses | slackscot.go:789-892 | If events of different queues are about different messages, then in every state that a run with an honest driver reaches, handlers in progress and evictions between any two steps included: no response in two cache slots, none deleted twice, and a deleted one cached only while the handler that deletes it is at work. |
| Responses.ConcurrentRunInvariant | slackscot.go:678-724 | Whenever no handler is at work, and so at the end, such a run satisfies the run invariant of the sequential bot, evictions included. |
| Honesty.HonestInQueue | slackscot.go:678-724 | A driver that hands out new ids in the sequential run does so in the run of each queue. |
| Honesty.AlignedRunIsHonest | slackscot.go:678-724 | And in every concurrent run, under the condition of confluence, whatever the interleaving. |
| Honesty.AlignedStateKeepsResponses | slackscot.go:789-892 | So under that condition every reachable state keeps the responses apart and none is deleted twice, for a driver that is honest to the sequential bot. |
| Agreement.AsIfAlone | slackscot.go:678-724 | After a complete concurrent run the responses to a group of messages are those of a world in which only their events happened. |
| Agreement.ShowsAmongIff | slackscot.go:760-892 | Seeing exactly the latest answers among the responses to a message is seeing exactly them in the world where the message is alone. |
| Agreement.ChainAgreesAmongOthers | slackscot.go:760-892 | Handled by concurrent workers among other messages, a message shows exactly the answers to its latest text if and only if no earlier version broke the track. |
| Counterexamples.EditAfterSilenceAnswersTwice | slackscot.go:760-785 | A concrete bot and three events after which one action has two live answers to one message. |
| Counterexamples.GreetingIsSplit | slackscot.go:728-734 | A concrete bot, message, deletion, checksum and router of two queues meet the conditions of the next two. |
| Counterexamples.DeletionInOrder | slackscot.go:843-861 | Taken in order, a message and its deletion leave no live answer. |
| Counterexamples.DeletionOvertakes | slackscot.go:728-734 | With two queues the same two events have a complete run that leaves the answer for good. |
| Counterexamples.DeletedTwice | slackscot.go:843-861 | An edit and a deletion of one message in different queues both look up its entry, and its response is deleted twice. |
| StoreCounterexamples.ForgetReachesOthers | plugins/triggerer.go:424-467 | After a global trigger and an empty one of a channel on the same text, forgetting it in that channel takes the global one from every other channel and leaves the channel's own. |
| StoreCounterexamples.AccentedSiloFails | store/leveldb.go:111-128 | A key of a silo named with U+00DA does not decode, and once it is stored the global scan fails. |
| StoreCounterexamples.AccentedTriggerFails | store/leveldb.go:131-173 | Once a standard trigger on U+00DA is stored, every scan of its silo and every global scan fails. |
| StoreCounterexamples.PartialResetReportsSuccess | plugins/karma.go:264-279 | Of two things the first cannot be deleted and the second can: a reset reports success and the first stays. |
| Witnesses.ConditionsAreMet | slackscot.go:678-734 | Two concrete greetings in two queues have a complete run that meets the conditions of confluence, honesty and agreement. |
| Splitting.SplitJoin | plugins/triggerer.go:392-399 | For a separator that does not overlap itself, splitting undoes joining of non-empty lists of parts free of it. |
| LevelDb.DecodeEncode | store/leveldb.go:111-128 | Decoding an encoded silo and key gives them back when both are free of the delimiter and is an error otherwise. |
| LevelDb.PrefixIffSilo | store/leveldb.go:116-118 | A raw key has the prefix of a silo exactly when the silo is its own. |
| LevelDb.LevelDB.ScanSilo | store/leveldb.go:131-148 | In any iteration order the scan finds all and only the keys with the silo's prefix, or fails if one does not decode. |
| LevelDb.LevelDB.GlobalScan | store/leveldb.go:151-173 | In any iteration order the scan groups all keys by silo, or fails if one does not decode. |
| LevelDb.RepresentedIsScanned | store/leveldb.go:151-173 | A global scan is the map of maps that the database stands for. |
| LevelDb.ScanOneRepresents | store/leveldb.go:131-148 | A silo scan is that silo of the global scan, a missing one read as empty, with nothing of another silo. |
| LevelDb.StepRefines | store/leveldb.go:51-173 | Each operation on the flat store answers and acts as on the map of maps. |
| LevelDb.RunRefines | store/leveldb.go:51-173 | So does every run of operations free of the delimiter. |
| LevelDb.DelimiterBreaksSilo | store/leveldb.go:131-148 | A scan of a silo works exactly as long as neither it nor any of its keys holds the delimiter. |
| LevelDb.DelimiterBreaksScan | store/leveldb.go:151-173 | Global scans of encoded keys work exactly as long as no silo or key holds the delimiter. |
| DatastoreDb.DatastoreDB.GetSiloString | store/datastoredb/datastoredb.go:101-118 | A read is retried once, after a reconnection, unless its error is final; the value is the stored one or there is an error. |
| DatastoreDb.DatastoreDB.PutSiloString | store/datastoredb/datastoredb.go:126-142 | A put reports its last attempt and has taken effect when any attempt did, even if it reports an error. |
| DatastoreDb.DatastoreDB.DeleteSiloString | store/datastoredb/datastoredb.go:151-162 | So does a delete. |
| InMemoryDb.AgreeUnlessFailed | store/inmemorydb/inmemorydb.go:63-98 | Over every run, memory and storage agree at each key whose latest write reported no error, though failed writes may have taken effect. |
| InMemoryDb.MirrorsExactly | store/inmemorydb/inmemorydb.go:41-134 | If failed writes have no effect, lookups, silo scans and global scans of the memory are those of the storage, emptied silos notwithstanding. |
| InMemoryDb.InMemoryDB.constructor | store/inmemorydb/inmemorydb.go:19-31 | The memory starts as a copy of the storage, with maps of its own. |
| InMemoryDb.InMemoryDB.PutSiloString | store/inmemorydb/inmemorydb.go:63-77 | The storage is written first and the memory only if that succeeds; other silos stay. |
| InMemoryDb.InMemoryDB.DeleteSiloString | store/inmemorydb/inmemorydb.go:86-98 | Likewise; the silo stays in memory when its last entry goes. |
| InMemoryDb.InMemoryDB.ScanSilo | store/inmemorydb/inmemorydb.go:107-116 | The scan is a fresh copy of the silo: writing into it does not reach the store. |
| InMemoryDb.InMemoryDB.GlobalScan | store/inmemorydb/inmemorydb.go:119-134 | The loops copy every silo with an entry, and no emptied one, each into a fresh map of its own. |
| Karma.DeltaSize | plugins/karma.go:186-209 | A change is one less than the number of signs, from one to five points, with their sign. |
| Karma.RecordKarma | plugins/karma.go:161-226 | On every exit, end, self-attribution or failed put, exactly the matches before the stop are applied, and the report shows the values they left. |
| Karma.ClearChannelKarma | plugins/karma.go:264-279 | For deletes that succeed or fail at will, in any order: what cannot be deleted stays, all else of the channel goes, other channels stay, and the report is the outcome of the last delete in that order. |
| Karma.ClearReports | plugins/karma.go:264-279 | Reported success means a cleared channel, whatever the order, if and only if all deletes succeed or none does; a cleared channel is always reported. |
| Karma.ClearBalances | plugins/karma.go:264-279 | A reset keeps the store equal to the ledger in which it deletes just those things. |
| Karma.RecordBalances | plugins/karma.go:161-226 | Recording matches keeps the store equal to the ledger extended by them. |
| Karma.LedgerBalances | plugins/karma.go:161-279 | Over every run of record and reset commands each stored value is the sum of the changes applied since the last reset that deleted it, and nothing else is stored. |
| Karma.SumOverAny | plugins/karma.go:312-326 | The sum over channels does not depend on their order. |
| Karma.ScanGlobalKarma | plugins/karma.go:306-343 | For every map order: an error exactly when a thing of several channels does not parse in one, else each thing's raw value or its sum over its channels. |
| Karma.MergedIsSum | plugins/karma.go:331-343 | When all values parse, merged karma is the per-thing sum over all channels. |
| Ranking.PrecedesTotal | plugins/karma.go:417-419 | The order by value and then by key is total and strict, both ways round. |
| Ranking.RankingIsUnique | plugins/karma.go:434-450 | There is only one list that ranks the entries, whatever the sort and the map order do. |
| Ranking.TopReversesWorst | plugins/karma.go:285-292 | The full top list is the full worst list backwards. |
| Ranking.ConvertMapValues | plugins/karma.go:452-463 | The values parsed, or an error exactly when one does not parse. |
| Ranking.ConvertToPairs | plugins/karma.go:423-432 | Each entry once, in any order. |
| Ranking.GetRankedList | plugins/karma.go:434-450 | The extreme entries in order, as many as asked for or all; every other entry comes after them; an error exactly when a value does not parse. |
| Leaderboard.MergedParses | plugins/karma.go:306-343 | The merged values parse exactly when all stored ones do, and are then the sums over channels. |
| Leaderboard.RankGlobally | plugins/karma.go:306-329 | The global list is an error exactly when some stored value does not parse, and otherwise ranks the per-thing sums. |
| Leaderboard.AnswerKarmaRankList | plugins/karma.go:346-375 | The list of a channel or of all channels, with the asked or the default count. |
| Leaderboard.ListsNeverFail | plugins/karma.go:346-375 | After every run of record and reset commands no list is an error, and what is ranked are the totals of the ledger. |
| Emoji.FindsEmoji | plugins/triggerer.go:402-412 | The scanner finds an emoji exactly when a name stands somewhere between two colons. |
| Emoji.ParsedAreNames | plugins/triggerer.go:402-412 | All it finds are emoji names. |
| Emoji.RenderSlackEmojis | plugins/triggerer.go:370-378 | The loop renders each name between colons and joins them. |
| Emoji.ListRoundTrip | plugins/triggerer.go:392-399 | Splitting a stored list gives back the joined one exactly when it is not empty and no name holds a comma. |
| Emoji.ScanRendered | plugins/triggerer.go:370-412 | Scanning a rendered list of emoji names gives the list back. |
| Emoji.RenderedEncodesAgain | plugins/triggerer.go:76-106 | A raw reaction is refused exactly when it holds no emoji; otherwise encoding the rendering of its encoding gives the same stored string. |
| Triggers.StoredInForce | plugins/triggerer.go:299-467 | Over every run, empty reactions included, what is stored is what the commands alone say is in force. |
| Triggers.PlainIfProper | plugins/triggerer.go:299-467 | If no empty reaction is registered, that is the last registration that no forget command for the channel, or for the global silo in its absence, has followed. |
| Triggers.KeysStayKnown | plugins/triggerer.go:342-349 | Over every run of typed commands every stored key starts with the rune of a known type. |
| Triggers.RunScopes | plugins/triggerer.go:424-535 | Over every run of typed commands stored keys have known types and a channel sees its own triggers in force over the global ones. |
| Triggers.ForgetExposesGlobal | plugins/triggerer.go:424-443 | Forgetting a channel's trigger shows that channel the global one it hid and changes nothing for others. |
| Triggers.ForgetsUnlessEmpty | plugins/triggerer.go:445-467 | Forgetting removes the trigger the channel sees if and only if its reaction is not empty. |
| Triggers.ForgetsPastOwn | plugins/triggerer.go:424-443 | A forget deletes the global trigger past one of the channel exactly when the channel's reaction is empty and the global one is not. |
| Triggers.IntendedUnlessEmpty | plugins/triggerer.go:424-467 | A run keeps to what its commands are for, at every point, exactly when no forget command in it meets an empty reaction. |
| Triggers.Triggerer.RegisterTrigger | plugins/triggerer.go:299-329 | The new state, written through, and the outcome: invalid, not persisted, replaced or new. |
| Triggers.Triggerer.DeleteChannelTrigger | plugins/triggerer.go:445-467 | Nothing for a missing or empty reaction; otherwise one deletion in that silo. |
| Triggers.Triggerer.DeleteTrigger | plugins/triggerer.go:424-443 | The channel's trigger is deleted, else the global one, else nothing. |
| Triggers.Triggerer.GetTriggersByType | plugins/triggerer.go:501-535 | For both types exactly the triggers the channel sees; the store is not changed although the scanned map is. |
| Triggers.Triggerer.GetTriggerRegexp | plugins/triggerer.go:239-251 | With the cache in any state the expression is the one compiled for the trigger. |
| Triggers.Triggerer.MatchTriggers | plugins/triggerer.go:214-235 | True exactly when some trigger that the channel sees matches. |
| Triggers.Triggerer.ReactOnStandardTriggers | plugins/triggerer.go:267-280 | An answer exactly when some trigger fires, and then the reaction of one that does. |
| Triggers.Triggerer.ReactOnEmojiTriggers | plugins/triggerer.go:283-296 | The emojis of all triggers that fire, each trigger once, and no others. |
| Triggers.Triggerer.ReactOnTriggers | plugins/triggerer.go:255-264 | Both kinds react to one message, each by the triggers the channel sees. |

## Left out

- Routing.PartitionRouter.RouteMessageEvent: is one attempt at the send, because a method cannot wait; the waiting and the hand-over to an idle worker are steps of `Dispatch`.
- Leaderboard.AnswerKarmaRankList: counts are unbounded, where the code takes the largest integer for a longer run of digits.
- Reconcile.Slackscot.ProcessUpdatedMessage: requires the sub message that Slack sends with an edit; without it the code would dereference nil.
- Triggers.Triggerer.GetTriggersByType: requires keys of known types, which `Triggers.KeysStayKnown` provides; with another key the code would write to a nil map.
- Ranking.Sort: the library's algorithm is not modelled, only that it uses `Less` and `Swap`; `Ranking.RankingIsUnique` makes the result independent of it.
- DatastoreDb.DatastoreDB.GlobalScan: the scan's own faults and its retry, which reuses a slice, depend on a library that is not part of this model.
- Karma.RecordKarma: the wrapped store's gets fail only for missing keys and its failed puts have no effect; rendering of names and answer texts are not modelled.
- The ARC cache's own policy: an eviction may drop any entries between two events or, in `Responses`, between two steps.
- In-place changes to a cached map while its event is handled: the entry is always rewritten or removed at the end of the handler.
- A driver call that fails has no effect on the chat; ephemeral posts are not followed.
- Timestamps are text and their distance is an arbitrary function, since only "does not parse" and "too old" matter.
- The regular expression engine: karma matches arrive as pairs of thing and signs, triggers compile to an arbitrary predicate, commands arrive parsed; only the emoji scanner is written out.
- CRC-32 is an arbitrary function to 32-bit words.
- Plugins are functions of the message, and the maps that workers share without locks are not modelled as racing.
- Karma values are unbounded integers; 64-bit overflow is not modelled.
- The bot's identity is cached and its bot id not empty, as `IsBot` compares with it.
- Slack, HTTP, configuration, logging, metrics, scheduled actions, help texts, file upload and the other plugins.
