# Verified model of the Mesquitte MQTT client

A Dafny model of the MQTT 3.1.1 client: its topic trie, packet identifier allocator, completion
tokens, packet handlers, session life cycle, QoS handshakes, WebSocket byte stream, keep-alive
timing and reconnect loop, with proofs about every input and every run.

`dafny verify dfyconfig.toml` checks everything.

| file | what it models |
|---|---|
| `Topics.dfy` | tokenising topics, the matching relation of the code, section 4.7 of MQTT Version 3.1.1 |
| `TrieSpec.dfy`, `TrieShape.dfy`, `MatchOrder.dfy` | the trie as a value: operations, match counts, refinement of a flat list, node count, the order of a lookup |
| `TopicTrie.dfy` | the heap trie: node objects, insert, remove with pruning, match, clear; `TopicManager` |
| `Tokens.dfy` | the shared completion record, wake-ups, subscribe and unsubscribe tokens |
| `PacketIds.dfy` | the cyclic 16-bit allocator, delayed reuse |
| `Handlers.dfy` | the handlers of `src/net.rs` over the client state; which subscription handlers are invoked |
| `Resubscribe.dfy` | the resubscribe job of `block` |
| `Session.dfy` | client calls, reader, writer, session task and `connect` as one transition system |
| `Outcomes.dfy`, `History.dfy` | over `Session`: which outcomes are replaced, which tokens never complete; what was sent, completed and reported, by the steps of the run |
| `Scenarios.dfy` | over `Session`: runs with surprising ends, and what the subscription map holds |
| `HeapSession.dfy` | the handlers on token and trie objects as steps of `Session` |
| `CarryOver.dfy` | the state objects that successive connects make, side by side; they refine to `Session` |
| `Delivery.dfy`, `Handshake.dfy`, `Progress.dfy` | QoS 0, 1 and 2 between two clients over lossy links: at most once, exactly once, and that messages arrive |
| `Links.dfy`, `LinkProgress.dfy` | the same over the queues, in their order |
| `HeapDelivery.dfy` | both clients of `Delivery` on token and state objects |
| `WsStream.dfy`, `WsPipe.dfy` | message frames as a byte stream; a writer and a reader joined by a wire |
| `KeepAlive.dfy`, `Reconnect.dfy` | the keep-alive loop in time; the retry counter of `block` |

Code that changes state in place is modelled by classes and loops; each such method is tied to a
function on values, and the properties of runs are proved about those functions. In the heap trie
the ghost map `nodes` says which node object stands at which path; it is one-to-one, so `Valid`
says that the nodes form an unshared tree. Tokens are objects in `Handlers` and `Resubscribe`; in
the transition systems a token is its number in the list of tokens created so far, and
`HeapSession` joins the two.

## Findings

* **Connected without a session, for good.** `connect` starts the session task
  (`src/client.rs:240`) before it sets the status to Connected (`src/client.rs:283-287`). If it
  ends in between, its Disconnected is overwritten. The status then reads Connected with no
  session, and no later step changes that: `connect` returns at once and `block` never
  reconnects. `Session.EarlyEndHappens`, `Session.ConnectedWithoutSessionIff`,
  `Session.RacedIff`, `Session.ConnectedForever`.
* **Success without delivery.** If the receiver's pending entry expires between PUBREC and PUBREL,
  the sender's QoS 2 token still completes without error. The only other way is an identifier that
  is issued again while a packet of an earlier session still carries it.
  `Handshake.ExactlyOnce`, `Handshake.ExpiryLosesMessage`, `Handshake.ReissueMisleads`.
* **Two deviations from section 4.7.** `a/#` does not match `a`, and a leading wildcard matches a
  `$` topic; there is no third. `Topics.MatchesAgainstStandard`, `Topics.StandardDeviations`.
* **Topics with literal wildcards are matched twice** exactly when a wildcard level of the filter
  meets the same characters in the topic. `subscribe` looks up the filter it is given
  (`src/client.rs:460`), so subscribing a wildcard filter again names it twice in the warning,
  which is all that comes of it there. `Topics.VisitedTwiceIff`, `Topics.OwnLookupTwiceIff`,
  `Topics.FoundTwice`.
* **A SUBACK handled before `add_subscriptions`** reports success and subscribes nothing, exactly
  when the subscribe call is still in progress at that moment. `Session.SubackTooEarlyIff`,
  `Session.SubackFinds`, `Session.HoldsNothingIff`, `Scenarios.EarlySubackHappens`.
* **Unsubscribed topics stay in the subscription map**, which in every run holds exactly the topics
  that a SUBACK ever granted, and come back on resubscribe. `Scenarios.InMapIff`,
  `Scenarios.StaysInMap`, `Scenarios.ComesBack`, `Resubscribe.UnsubscribedComesBack`.
* **Two tasks awaiting clones of a token:** only the last one to poll is woken.
  `Tokens.TwoAwaitersLoseOne`, `Tokens.AllWokenIff`.
* **An error set after completion replaces the outcome** that an earlier poll reported. The client
  does so in five steps, named exactly; an invalid topic turns into a lost connection at the end
  of the session, for one. `Tokens.OutcomeChangesIff`, `Outcomes.OutcomeReplacedIff`,
  `Scenarios.InvalidTopicReplaced`.
* **Some tokens never complete.** QoS 0 and disconnect tokens whose packet is in the channel when
  the writer stops, and no other request tokens: all others complete or still can. And the token
  that `connect` returns when already connected. `Outcomes.LostIff`, `Outcomes.CanComplete`,
  `Scenarios.OnceLost`, `Outcomes.ConnectTokenIff`.
* **An empty write reads as the end of the stream** on the other side, and nothing else but a
  terminator does. `WsStream.EarlyEndIff`, `WsPipe.EmptyWriteReadsAsEnd`,
  `WsPipe.EarlyEndNeedsEmptyWrite`.
* **Keep-alive durations that are pinged too rarely.** CONNECT announces whole seconds truncated to
  16 bits, and the loop counts from the start of the session, not from CONNECT. With timers on
  time these fail: durations strictly between 1.5 and 2 seconds; those of 65536 seconds or more,
  except where the truncation gives 0, which turns the mechanism off; and any announced duration
  when the CONNACK takes longer than half the announced time less the fraction of a second that is
  not announced. Nothing bounds that wait. `KeepAlive.PatientIff`, `KeepAlive.PatientOnTimeIff`,
  `KeepAlive.ServerTimesOut`, `KeepAlive.SomeWaitFails`.

## Model

| member | source | states |
|---|---|---|
| Topics.TokenizeSlashFree | src/topic_trie.rs:204-206 | no token contains the separator |
| Topics.JoinTokenize | src/topic_trie.rs:204-206 | joining the tokens gives the topic back |
| Topics.TokenizeJoin | src/topic_trie.rs:204-206 | every non-empty list of slash-free levels is the tokenisation of its join, so tokenising is a bijection |
| Topics.TokenizeInjective | src/topic_trie.rs:190-193 | different topics have different trie paths |
| Topics.VisitsIffMatches | src/topic_trie.rs:105-134 | a filter's node is reached by the walk if and only if the matching relation holds |
| Topics.VisitedTwiceIff | src/topic_trie.rs:121-133 | a matching filter is reported more than once exactly when one of its wildcard levels stands literally in the topic |
| Topics.OwnLookupTwiceIff | src/client.rs:460-472 | a stored filter that is subscribed again is found more than once exactly if it has a wildcard level |
| Topics.MatchesByLevels | src/topic_trie.rs:112-133 | the recursive relation, level by level without recursion |
| Topics.MatchesAgainstStandard | src/topic_trie.rs:112-133 | the code and section 4.7 of MQTT Version 3.1.1 differ in exactly two cases |
| Topics.StandardDeviations | src/topic_trie.rs:112-133 | a filter and a topic for each of the two cases |
| TrieSpec.InsertHeld | src/topic_trie.rs:34-51 | inserting appends to the list of its path and changes no other list |
| TrieSpec.RemovedHeld | src/topic_trie.rs:72-94 | removing empties the list of its path and changes no other list, although nodes are pruned |
| TrieSpec.RemovedTree | src/topic_trie.rs:77-94 | pruning leaves a tree in which every subscription is at its own path |
| TrieSpec.CountIsWeight | src/topic_trie.rs:105-134 | the walk reports each subscription once per visit of its home node |
| TrieSpec.RunRepresents | src/topic_trie.rs:185-202 | after any run of add, remove and clear every node holds the flat list's subscriptions of its topic, in order |
| TrieSpec.RunMatches | src/topic_trie.rs:195-198 | after any run, a lookup reports each stored subscription once per visit; on wildcard-free topics once if its filter matches, else never |
| TrieSpec.ClearedIsNew | src/topic_trie.rs:137-152 | a cleared trie that kept its nodes answers every lookup, after any later operations, as a new one does |
| MatchOrder.MatchInOrder | src/topic_trie.rs:112-133 | a lookup reports literal levels before `+` and `+` before `#`, level by level |
| MatchOrder.RunInOrder | src/topic_trie.rs:185-202 | the same after any run of add, remove and clear |
| TrieShape.RunPruned | src/topic_trie.rs:77-94 | in runs of add and remove every leaf but the root holds a subscription |
| TrieShape.RemoveResult | src/topic_trie.rs:57-70 | in such runs a path is found if and only if it is a prefix of a stored filter |
| TrieShape.NodeCount | src/topic_trie.rs:77-94 | in such runs there are at most one node per level of the stored filters, and the root |
| TrieShape.ClearKeepsNodes | src/topic_trie.rs:143-152 | clear keeps the nodes, so pruning claims do not survive it |
| TopicTrie.MqttTopicTrie.ChildEntry | src/topic_trie.rs:41-45 | the child under a token, created if absent; the heap stays an unshared tree |
| TopicTrie.MqttTopicTrie.Insert | src/topic_trie.rs:34-51 | the loop over node objects computes the insertion on values |
| TopicTrie.MqttTopicTrie.Remove | src/topic_trie.rs:53-97 | descent, clearing and bottom-up pruning remove exactly the dead nodes of the path; the result says whether the path was there |
| TopicTrie.MqttTopicTrie.CleanUp | src/topic_trie.rs:77-94 | the pruning loop, deepest node first |
| TopicTrie.PruneStep | src/topic_trie.rs:77-94 | a node on the path has no children left and no subscriptions exactly when nothing alive hangs below it |
| TopicTrie.MqttTopicTrie.MatchTopic | src/topic_trie.rs:105-134 | the recursive walk appends what the matching on values finds, in order |
| TopicTrie.MqttTopicTrie.ClearNode | src/topic_trie.rs:143-152 | the recursive clearing empties all lists at and below a node and no other |
| TopicTrie.TopicManager.Add | src/topic_trie.rs:185-188 | adds one subscription at the path of its topic |
| TopicTrie.TopicManager.Remove | src/topic_trie.rs:190-193 | removes the path of the topic |
| TopicTrie.TopicManager.MatchTopic | src/topic_trie.rs:195-198 | the subscriptions matching a topic |
| TopicTrie.TopicManager.Clear | src/topic_trie.rs:200-202 | empties every list and keeps the nodes |
| TopicTrie.Replay | src/topic_trie.rs:185-202 | any run of add, remove and clear on node objects leaves what the run on values leaves |
| TopicTrie.LookUpAfter | src/topic_trie.rs:185-202 | after any run on node objects a lookup reports each stored subscription once per visit; on wildcard-free topics once if its filter matches, else never |
| Tokens.Token.Poll | src/token/mod.rs:131-145 | the outcome if complete, else the waker is stored |
| Tokens.Token.SetError | src/token/mod.rs:154-163 | stores the error, completes, wakes the stored waker |
| Tokens.Token.FlowComplete | src/token/mod.rs:165-173 | completes, keeps the error, wakes the stored waker |
| Tokens.NoLostWakeUp | src/token/mod.rs:131-173 | in every run a complete token stores no waker and has woken exactly the last pending poll's, once |
| Tokens.CompletionIsPermanent | src/token/mod.rs:154-173 | once complete, always complete, and no later poll waits |
| Tokens.OutcomeIsLastError | src/token/mod.rs:154-173 | in every run the outcome is the error of the last set_error, none if there was none |
| Tokens.OutcomeChangesIff | src/token/mod.rs:154-163 | what is reported later differs from what was reported at any completed point exactly if the last set_error came after it, with another error |
| Tokens.TwoAwaitersLoseOne | src/token/mod.rs:141-143 | of two awaiting tasks the first is never woken |
| Tokens.AllWokenIff | src/token/mod.rs:141-143 | every pending poll is woken if and only if all carry the same waker |
| PacketIds.NextIdIsFirstVacant | src/pkid.rs:35-53 | the first vacant identifier in cyclic order after the cursor; 0, with nothing changed, if and only if all 65535 are held |
| PacketIds.PacketIdTable.GetId | src/pkid.rs:35-53 | the wrapping loop terminates, probing the identifiers after the cursor in cyclic order for at most one turn, and computes that identifier and the new table |
| PacketIds.ProbesDistinct | src/pkid.rs:38-52 | within one turn no identifier is probed twice |
| PacketIds.PacketIdTable.ClaimId | src/pkid.rs:22-33 | takes an identifier, completing the token that held it |
| PacketIds.PacketIdTable.FreeId | src/pkid.rs:59-61 | frees one identifier |
| PacketIds.PacketIdTable.CleanUp | src/pkid.rs:63-68 | fails every token in the table and empties it |
| PacketIds.StepApproaches | src/pkid.rs:39-48 | an issue that does not meet an identifier moves the cursor closer to it |
| PacketIds.MetIfFarther | src/pkid.rs:35-53 | a run that ends with the cursor farther from an identifier has issued it or found it held |
| PacketIds.DelayedReuse | src/pkid.rs:35-61 | between two issues of one identifier every other one was issued or found held |
| Handlers.SubackTrie | src/net.rs:324-336 | the trie gains exactly the granted positions, in order, for lists of any lengths |
| Handlers.SubackMap | src/net.rs:324-336 | the map keeps the last granted subscription per topic |
| Handlers.SubackResults | src/token/subscribe_token.rs:40-47 | the results keep the last return code per topic |
| Handlers.LastCodeInRange | src/token/subscribe_token.rs:33-47 | the last code of a topic is the one at its greatest position among the codes |
| Handlers.RemoveTopicsHeld | src/net.rs:347-351 | exactly the lists of the named topics are emptied |
| Handlers.State.HandlePublish | src/net.rs:219-266 | with QoS 0 and 1 the handler of every subscription that the lookup finds is invoked with the packet, in order and no other; QoS 2 is stored, replacing what was there; the response by QoS |
| Handlers.State.HandlePubrel | src/net.rs:281-305 | the stored packet, if any, is taken out and the handler of every subscription that the lookup finds is invoked with it; PUBCOMP in any case |
| Handlers.InvokedAfter | src/net.rs:219-305 | after any run on the trie objects a message on a wildcard-free topic invokes each handler once per stored matching subscription that has it, a QoS 2 message with its PUBREL |
| Handlers.State.HandleAck | src/net.rs:268-275 | PUBACK and PUBCOMP complete whatever token holds the identifier and free it |
| Handlers.State.HandleSuback | src/net.rs:316-341 | pairs codes with subscriptions, updates trie, map and results, completes and frees; nothing for other tokens |
| Handlers.State.HandleUnsuback | src/net.rs:343-356 | removes the token's topics from the trie, completes and frees; nothing for other tokens |
| Resubscribe.SubscribeAgain | src/client.rs:443-517 | one subscribe call with its SUBACK, from any identifier table: the subscription is added exactly when an identifier is free and the SUBACK grants in time; the token completes in every case, and with which error |
| Resubscribe.ResubscribeAll | src/client.rs:148-172 | whatever becomes of each SUBSCRIBE, afterwards the trie holds one subscription per map entry granted in time and nothing else; the map is unchanged; no entry lacks an identifier while the map has at most 65535 |
| Resubscribe.FreeWhileSmall | src/pkid.rs:35-53 | a table with fewer than 65535 entries has a free identifier |
| Resubscribe.UnsubscribedComesBack | src/net.rs:343-356 | an UNSUBACK empties the list of a topic, and the resubscribe job after it puts the subscription of the map back |
| Session.StepStatus | src/client.rs:183-192 | how status, session task and call in progress relate, kept by every step |
| Session.StepTokens | src/client.rs:268-281 | every issued token is complete or in the index, kept by every step |
| Session.NoOrphanedToken | src/client.rs:268-281 | with no session and no call in progress every token that got an identifier is complete, and success means an acknowledgement |
| History.SentIsTaken | src/client.rs:425-438 | over every run, per session: what the writer took out, then the channel, is what the calls sent while it was running, in order, up to what it drops when it stops |
| History.EveryCallSends | src/client.rs:392-438 | over every run each call is before sending, came to sending, or gave up for one of three reasons |
| History.CompleteIff | src/net.rs:140-177 | over every run a token is complete exactly if an error, its acknowledgement, or the writing of its unacknowledged packet was a step of the run |
| History.ErrorIsLastReport | src/client.rs:373-438 | the error of a token is that of the last step of seven kinds that reports one |
| History.NoErrorUnreported | src/client.rs:373-438 | and none if no step reports one |
| History.ConnectOutcome | src/client.rs:183-323 | a connect token reports what the end of its connect gave it |
| History.KindOfRequest | src/net.rs:316-356 | SUBACK and UNSUBACK find the tokens of subscribe and unsubscribe calls and no others |
| Session.TrieAgreesWithMap | src/net.rs:321-355 | in every reachable state a topic with subscriptions is in the map with the last one pushed, and map entries are filed under their topics |
| Session.GrantsFiled | src/net.rs:324-336 | a SUBACK keeps trie and map in agreement |
| Session.RemovalsFiled | src/net.rs:347-351 | an UNSUBACK keeps trie and map in agreement |
| Session.ConnectedWithoutSessionIff | src/client.rs:275-287 | the status is Connected without a session exactly when a session ended before connect set the status |
| Session.RacedIff | src/client.rs:275-287 | that history is exactly an early session end in the run |
| Session.ConnectedForever | src/client.rs:183-187 | from then on the client never has a session again |
| Session.EarlyEndHappens | src/client.rs:240-287 | a run that gets there |
| Session.SubackFinds | src/client.rs:476-514 | in every reachable state a SUBACK for a token without error finds the requested subscriptions, unless the call is still in progress; then it finds none |
| Session.SubackTooEarlyIff | src/net.rs:321-340 | a granting SUBACK subscribes nothing, and reports success, if and only if the subscribe call is still in progress |
| Session.HoldsNothingIff | src/client.rs:513-514 | over every run a token holds no subscriptions if and only if add_subscriptions was not yet made for it |
| Scenarios.EarlySubackHappens | src/client.rs:493-514 | a run of seven steps in which the SUBACK comes too early |
| Session.UnsubscribedStaysInMap | src/net.rs:346-351 | an UNSUBACK empties the trie lists and leaves the map |
| Scenarios.InMapIff | src/net.rs:324-356 | over every run a topic is in the map if and only if some SUBACK granted it: no unsubscribing takes any out |
| Scenarios.StaysInMap | src/net.rs:346-351 | a run that subscribes and unsubscribes: nothing in the trie, the subscription in the map |
| Scenarios.ComesBack | src/client.rs:148-172 | that run continued over a reconnect without session: the subscription is in the trie again |
| Outcomes.OutcomeReplacedIff | src/pkid.rs:63-68 | the outcome of a complete token changes exactly by five steps that set another error |
| Scenarios.InvalidTopicReplaced | src/client.rs:411-416 | a run in which a token reports an invalid topic first and a lost connection later |
| Outcomes.LostIff | src/net.rs:140-177 | over every run the tokens that nothing can complete any more are exactly those without identifier that a stopping writer left in the channel |
| Outcomes.LostForever | src/net.rs:160-170 | such a token stays incomplete in every later state |
| Outcomes.CanComplete | src/net.rs:160-170 | from every reachable state every other incomplete token can complete |
| Outcomes.CompleteOrLost | src/client.rs:268-281 | with no session and no call in progress every token is complete or lost |
| Scenarios.OnceLost | src/net.rs:160-165 | a run that loses the token of a QoS 0 publish |
| Outcomes.ConnectTokenIff | src/client.rs:180-195 | over every run a connect token is incomplete exactly while its connect is in progress, or if it was made when connected |
| Outcomes.NeverTold | src/client.rs:183-187 | the latter stays incomplete for good |
| HeapSession.AckStep | src/net.rs:268-275 | on objects that show a client, PUBACK and PUBCOMP handling is the step of the transition system |
| HeapSession.SubackStep | src/net.rs:316-341 | so is SUBACK handling |
| HeapSession.UnsubackStep | src/net.rs:343-356 | so is UNSUBACK handling |
| HeapSession.CleanUpStep | src/pkid.rs:63-68 | so is the clean-up of the identifier table |
| HeapSession.TakeIdStep | src/pkid.rs:35-53 | so is taking an identifier |
| HeapSession.BeginStep | src/client.rs:373-381 | so is making the token of a request |
| HeapSession.ShownByHeap | src/net.rs:41-180 | the data after any step are those that one operation on the heap leaves, or are unchanged |
| CarryOver.StepRefines | src/client.rs:217-236 | every step with all state objects side by side is a step of the client seen through the newest; the others have no task and do not change |
| CarryOver.RunRefines | src/client.rs:217-236 | every such run is a run of the client with one state: copying identifiers and map and sharing the trie cannot be told apart |
| CarryOver.LeftBehind | src/client.rs:217-236 | a state object that a connect replaced is never live and never changes again |
| Delivery.StepOnce | src/net.rs:219-305 | at most one PUBLISH per message in flight and only while undelivered, one-to-one pending table: kept by every step, session ends that lose nothing included |
| Handshake.StepInv | src/net.rs:255-314 | one packet per identifier in flight; if the identifier is held, then by the message the packet speaks of; kept by every step that issues no identifier in flight |
| Delivery.AtMostOnce | src/net.rs:219-305 | in every run, whatever outlives a session, every message is dispatched at most once |
| Progress.MessageFinishes | src/net.rs:255-314 | from every state of a careful run a QoS 1 or 2 message whose PUBLISH, PUBREC or PUBREL is in flight can be brought, by handling its packets one by one, to exactly one dispatch and success |
| Progress.PublishFinishes | src/client.rs:362-441 | in particular from every publish call that queues its packet |
| Progress.PublishSendsIff | src/client.rs:382-438 | a publish call sends a PUBLISH of its QoS if and only if it is queued and an identifier is free when one is needed |
| Progress.QosZeroArrives | src/net.rs:226-238 | handling a QoS 0 message dispatches it |
| Progress.GoesOn | src/net.rs:255-314 | whatever else happens without losses and endings, a message on its way stays on its way until it is done; once the links are empty it is |
| Progress.TimesAreDeliveries | src/net.rs:219-305 | a message is dispatched exactly at its PUBLISH with QoS 0 or 1, or at the PUBREL under whose identifier it is pending |
| Progress.LeavesPending | src/net.rs:255-305 | over every run a message leaves the pending table only to its handlers, by expiry, or for a later PUBLISH under its identifier |
| Progress.ErrorIsLastReport | src/client.rs:373-438 | the error of a publish token is that of the last step that reports one |
| Progress.NoErrorUnreported | src/client.rs:373-438 | and none if no step reports one |
| Handshake.ExactlyOnce | src/net.rs:307-314 | success of a QoS 1 or 2 token means exactly one dispatch if and only if the message did not expire, until an identifier in flight is issued again |
| Handshake.AcksFindTheirOwn | src/net.rs:268-275 | until then a PUBACK or PUBCOMP never completes the token of a SUBSCRIBE or UNSUBSCRIBE |
| Handshake.CleanIsCareful | src/pkid.rs:44-48 | if nothing outlives a session, that never happens |
| Handshake.NotReissued | src/pkid.rs:44-48 | in such runs an identifier in flight, or pending from this session, is held and is not issued |
| Handshake.ExpiryLosesMessage | src/state.rs:31-34 | a run in which an expired message is reported as success |
| Handshake.ReissueMisleads | src/net.rs:268-275 | a run in which a surviving PUBACK reports success for a later message that was never dispatched |
| Links.StepRefines | src/net.rs:117-180 | every step of the channels and wires is a step of the bags |
| Links.RunRefines | src/net.rs:117-180 | every run of the queues is a run of the bags |
| Links.LinksDeliverOnce | src/net.rs:219-305 | at most once over the queues |
| Links.LinksDeliver | src/net.rs:255-314 | exactly once over the queues, until an identifier is issued that a queued packet carries |
| Links.LinksDeliverClean | src/net.rs:255-314 | exactly once in every run in which the wires are empty at each session end |
| LinkProgress.LinkMessageFinishes | src/net.rs:117-180 | a message in any queue can be brought to exactly one dispatch and success by reading and writing at the heads of the queues alone |
| LinkProgress.ReadInOrder | src/net.rs:117-180 | without drops the receiver reads PUBLISHes in the order of the calls and PUBRELs in the order of the answers, none missing |
| LinkProgress.AnsweredInOrder | src/net.rs:117-180 | and the sender reads the responses in the order in which they were made |
| HeapDelivery.ReceivePublish | src/net.rs:219-266 | on a state that holds the pending messages, handling a PUBLISH is the step of the receiver, response and invoked handlers included |
| HeapDelivery.ReceivePubrel | src/net.rs:281-305 | so is handling a PUBREL |
| HeapDelivery.AnswerAck | src/net.rs:268-314 | on tokens that show the sender, handling PUBACK and PUBCOMP is its step |
| HeapDelivery.EndStep | src/pkid.rs:63-68 | so is the clean-up at the end of its session |
| HeapDelivery.PublishStep | src/client.rs:373-441 | so is a publish call |
| WsStream.WsByteStream.FillBufWithNextMsg | src/ws_stream.rs:53-96 | skips other frames and classifies terminators and errors |
| WsStream.WsByteStream.PollRead | src/ws_stream.rs:105-138 | the polling loop computes one read |
| WsStream.WsByteStream.PollFillBuf | src/ws_stream.rs:147-169 | makes the buffered remainder visible |
| WsStream.WsByteStream.Consume | src/ws_stream.rs:171-182 | takes at most what is buffered |
| WsStream.WsByteStream.PollWrite | src/ws_stream.rs:191-240 | sends one frame when accepted; closing is permanent |
| WsStream.WsByteStream.PollFlush | src/ws_stream.rs:242-262 | the answer per sink result; the two closed results close the stream for writing |
| WsStream.WsByteStream.PollShutdown | src/ws_stream.rs:264-281 | closes for writing before the sink is asked, whatever it answers |
| WsStream.ReadConserves | src/ws_stream.rs:105-138 | a read moves bytes from the outstanding ones to its result, in order, losing none |
| WsStream.ZeroReadIff | src/ws_stream.rs:121-135 | a read into a non-empty buffer yields no bytes without termination if and only if the first event that is not another kind of frame is an empty binary frame; with termination, if and only if it is a terminator |
| WsStream.AnswerIff | src/ws_stream.rs:53-96 | a read or peek is pending if and only if the stream waits and only other kinds of frames have arrived; it fails, and how, if and only if the first other event is an error, and which |
| WsStream.ShowsAllIff | src/ws_stream.rs:121-169 | a peek shows exactly the unread part of the frame at hand, and a read takes as much of it as there is room for |
| WsStream.TakesEventsUpTo | src/ws_stream.rs:53-96 | a poll takes the events up to the first that is not another kind of frame, and no more |
| WsStream.EndsIff | src/ws_stream.rs:53-96 | a poll ends the stream if and only if it has ended or that event is a terminator; other errors leave it waiting |
| WsStream.WriteAnswerIff | src/ws_stream.rs:191-240 | which answers of the sink lead to which answer of a write, and which close the stream |
| WsStream.FlushAnswerIff | src/ws_stream.rs:242-281 | the same of flush and shutdown |
| WsStream.RunConserves | src/ws_stream.rs:105-182 | under every mix of reads, peeks and consumes: taken, buffered and unread bytes make up the payload that arrived |
| WsStream.NoEarlyEnd | src/ws_stream.rs:105-138 | in every run a read ends early if and only if it stands at an empty frame, which then was among those that arrived |
| WsStream.EarlyEndIff | src/ws_stream.rs:105-138 | some run over the arrived events ends early if and only if they hold an empty frame before any terminator |
| WsPipe.StepInv | src/ws_stream.rs:191-281 | frames that arrived, frames on the wire and accepted buffers agree, kept by every write, flush, shutdown, delivery, loss and read |
| WsPipe.RoundTrip | src/ws_stream.rs:191-240 | in every run of both ends the bytes read are a prefix of those whose write was accepted; read, outstanding and wire make them up while nothing is lost |
| WsPipe.ClosedForever | src/ws_stream.rs:199-240 | once closed for writing, always closed, and no write is accepted |
| WsPipe.ClosedIff | src/ws_stream.rs:191-281 | over every run the stream is closed for writing exactly if a shutdown was made, or a write or flush found the connection closed |
| WsPipe.AcceptedAre | src/ws_stream.rs:191-240 | the accepted buffers are those whose write the sink took, in order |
| WsPipe.EarlyEndNeedsEmptyWrite | src/ws_stream.rs:105-138 | an early end takes an accepted write of an empty buffer |
| WsPipe.EmptyWriteReadsAsEnd | src/ws_stream.rs:105-138 | from every state with nothing lost and an empty frame on the wire or unread, the reader can reach an early end |
| KeepAlive.StepOnTime | src/net.rs:184-215 | the loop wakes within a duration of the last packet unless a ping is on its way, kept by every step |
| KeepAlive.PingIffQuiet | src/net.rs:194-207 | over every run a step decides on a ping if and only if it is a check a duration or more after the start of the session and after every write |
| KeepAlive.OtherwiseAsleep | src/net.rs:208-213 | any other check leaves the loop asleep until exactly a duration after the last write, or after the start |
| KeepAlive.PingsApart | src/net.rs:184-215 | two pings are decided on at least a duration apart |
| KeepAlive.GapBound | src/net.rs:184-215 | consecutive packets are at most duration, lateness and writing delay apart; CONNECT and the next one the wait for the session more |
| KeepAlive.PatientIff | src/client.rs:86 | for every duration, lateness, delay and wait: the worst gap is within the server's patience if and only if 0 is announced or the slack of whole seconds suffices |
| KeepAlive.PatientOnTimeIff | src/client.rs:207-217 | with timers on time: which durations fail for which wait between CONNECT and the session |
| KeepAlive.WorstRun | src/net.rs:184-215 | for every positive duration and any limits a run that reaches the worst gap |
| KeepAlive.ServerNeverTimesOut | src/net.rs:184-215 | under that condition no run, CONNECT included, exceeds one and a half times the announced value, section 3.1.2.10 of MQTT Version 3.1.1 |
| KeepAlive.ServerTimesOut | src/net.rs:184-215 | without it some run does |
| KeepAlive.SomeWaitFails | src/client.rs:207-209 | for every announced duration a run with timers on time that fails by the wait for the CONNACK alone |
| Reconnect.FailuresIsCount | src/client.rs:110-147 | the counter's value is the number of failed attempts after the last success |
| Reconnect.LastSuccessUnique | src/client.rs:110-147 | there is only one point that counts as the last success |
| Reconnect.Block | src/client.rs:110-147 | the loop is left at the first moment the limit is reached, or when it finds a disconnect nobody asked for with reconnecting switched off, and only then; it asks for a reconnect at every such disconnect otherwise |

## Left out

- Socket, TLS, QUIC and WebSocket set-up (`src/transport.rs`), options, messages and the examples: foreign calls and getters.
- Packet encoding and the validity checks of topic names and filters: they are in `mqtt-codec-kit`, which is not part of this model; whether a topic is valid is a free choice of the step.
- Per-node locking of the trie: each trie operation is one step. Adds and removes are made by the reader task alone.
- The order in which spawned message handlers run: a dispatch is recorded when it is spawned.
- Expiry and capacity of the pending cache: expiry is a free step; the capacity equals the number of identifiers and is never exceeded.
- Panics, aborted tasks and cancelled futures: the tasks end by leaving their loops.
- Session: pings have no token and are not followed; why a connection attempt fails is not told apart, one error stands for all.
- Session: a full channel only delays a send, which is a step that may be taken later; `claim_id` is not used by the client.
- Delivery: one direction between two clients; the two roles of a client share no state but the stateless PUBREC handler, and the packet's dup and retain flags play no part.
- Delivery: the completion of QoS 0 tokens by the writer, and the packets of SUBSCRIBE and UNSUBSCRIBE; these only take and free identifiers.
- Delivery: the broker passes packets on and neither duplicates nor answers them; what it loses, and what it carries over to a later session of the sender, is a free choice of the step.
- KeepAlive: the real clock is a natural number of nanoseconds; how late timers fire, pings are written and the session starts are parameters. The time of a packet is when the writer records it, at the end of writing.
- WsPipe: a cut loses all frames on the wire; a frame is delivered whole, and which errors the inner stream reports is a free step.
- PacketIds.PacketIdTable.ClaimId: no run property, since a claim may move the cursor past identifiers without probing them.
