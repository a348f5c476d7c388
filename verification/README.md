# Verified model of the MessageBox client

The client sends messages to a relay over a WebSocket with an HTTP fallback, receives them over WebSocket push
with an HTTP poll behind it, and handles payments that travel inside messages. These modules model the parts where
order, concurrency or branching decides correctness, and prove what holds over every run.

| modules | subject |
|---|---|
| `PendingAcks`, `AckProtocol`, `AckShape`, `AckCounting`, `AckTheorems`, `AckFifo` | matching room-scoped acks, which carry no id, to concurrent live sends |
| `Envelope`, `DeliveryPaths` | unwrapping and decrypting bodies; push, poll and listing deliver the same message |
| `DedupWindow`, `Subscriptions`, `Feeding`, `PollBackstop`, `PollTasks` | exactly-once delivery through a bounded window, across reconnects, leaves and new listens, and the poll that backs push up |
| `PaymentRules`, `ListMessages`, `HostMerge` | which payments may reach the wallet, retry data, and merging several hosts |
| `PeerPay`, `PeerPayRuns`, `CopySafety` | accepting, rejecting and acknowledging payments, over whole runs with failures and retries, and which of it is safe on a message that was listed, pushed or polled |
| `PaymentRequests`, `PaymentRequestTheorems` | the multi-pass filter over incoming payment requests |
| `BatchSend`, `BatchTheorems` | quotes, the batch fee transaction and the report per recipient |
| `IdempotentSend` | sending the same message repeatedly over either path |

The JSON library, base64, key parsing, lower-casing, the wallet and the relay are parameters: function values, or
answers that each operation receives for the calls it makes. Every theorem quantifies over them. Of the JSON library
only two weight laws are assumed (`Envelope.Env.Lawful`): a parsed value weighs no more than its text, and reprinting
and reparsing a value does not make it heavier, with the contents of strings weighed by their length.

Concurrency is a step system. A step is one critical section of the source, a step that is not enabled does
nothing, and a run is a fold over any sequence of steps, so a statement about every sequence of steps is a statement
about every interleaving.

## What turned out not to hold

Each of these has its exact condition.

- A send that gives up does not remove its own waiter but the oldest one of the room. `CleanupHitsItsOwnIffOldest`
  says when these coincide and that otherwise another call can never return `Live`; `TimeoutMisalignsTheQueue` shows
  an ack that is then lost.
- Leaving a room does not end its poll task: the task ends exactly when one of its intervals finds the room left
  (`TaskEndsIff`). Listening again before that makes duplicates possible, and only then (`RelisteningCanDuplicate`);
  `ListeningAgainTooSoon` is such a run. In general a new message can reach the user twice within one window, without
  another listen, exactly when two callbacks of the room can still be fed (`TwiceIffTwoFed`). A task that has not ended
  is one of them even in a room that was left, because the client's own `join_room` wakes it without any listen;
  listening and leaving twice leaves two (`LeavingTwiceLeavesTwoFed`).
- A connection's callbacks need not match the registry. The one swapped in after a reconnect does exactly as far as the
  registry still is what the reconnect copied of it (`SwapMatchesRegistryIff`), so leaving a room that is being replayed
  leaves it installed (`LeavingDuringReconnect`).
- "The legacy body equals the raw body exactly when the payment outcome is unsafe" fails for bare text
  (`PlainTextComesBackRaw`). `RetryDataIsKept` gives the exact condition: unsafe, or neither a wrapper nor an envelope
  that opens, or a body whose innermost envelope holds it whole.
- Accepting, rejecting or acknowledging a message can drop a relay copy whose own payment the wallet never accepted. For
  every kind of attempt and every way the message reached the caller, `LostIff` says exactly when: for a listed
  notification, when the body is over the 4 MiB cap of listing or has no `message` member of its own
  (`NoticeMustStoreIff`, `UnwrappedPaymentIsAcknowledgedUnseen`); for a live one, unless it was decrypted and its text
  carries that very payment; for a token, listed or live, when it is rejected below the refund threshold or storing it
  stores anything but the copy's payment.
- In particular a live payment token in a wrapper with a payment of its own: push and poll strip the wrapper before the
  token is read, and accepting the token acknowledges wrapper and all (`LiveTokenLosesTheWrapper`, `LossIsReachable`).
  Listed, the same wrapper stays raw and is safe (`ListedWrappersAreSafe`).
- Listing payment requests leaves a message that carries a payment on the relay exactly when its wrapper is within the
  cap and itself reads as an active request; every other one is acknowledged, payment and all
  (`PaymentWrapperIsAcknowledged`).
- A later verified cancellation by somebody else takes the requester's own out of force (`LaterCancellationWins`).
- Recipients whose quote failed are reported as blocked and are still sent to (`EveryPositionIsReported`).
- A host ends up with one copy of a message exactly when all its arrivals came under one id (`OneCopyPerHost`), so an
  id of the caller's choosing lets the push and its HTTP fallback store two (`ChosenIdDuplicatesIff`).
- Derived ids leave the box out. The same body for a second box of one recipient is answered `Ok` and never stored
  there under its derived id (`OtherBoxIsNeverStored`, `OneLetterOneBox`); `SendMessage` states when `Ok` means stored.
- A room id splits back into its parts only when its key is 66 bytes long or free of hyphens; `SplitRoundTrip` has
  the exact condition.
- The batch charges the announced total exactly when the delivery fees it leaves out, the negative ones and those with
  no known agent, add up to nothing (`ChargesTheTotalIff`); `QuotedIsChargedPlusUncharged` states the difference.
- A list merged from several hosts has no id twice; a single host's page is returned as it came
  (`MergeIgnoresHostOrder`).
- A refund is sent once per attempt whose refund step succeeds, so retries can refund again (`RefundTotal`), as the
  comment in the source warns (`src/peer_pay.rs:384-387`).

## Model

| member | source | states |
|---|---|---|
| PendingAcks.MessageBoxWebSocket.RegisterWaiter | src/websocket.rs:239-246 | the waiter joins the back of its key's queue and no other queue changes |
| PendingAcks.MessageBoxWebSocket.RollbackWaiter | src/websocket.rs:251-257 | a failed emit takes the youngest waiter of the key; a key never keeps an empty queue |
| PendingAcks.MessageBoxWebSocket.TakeOldest | src/websocket.rs:265-273 | acks and cleanups take the oldest waiter of the key, and the key goes with its last waiter |
| PendingAcks.MessageBoxWebSocket.Disconnect | src/websocket.rs:278-292 | every waiter of every room is refused exactly once and all state is cleared |
| PendingAcks.MessageBoxWebSocket.JoinRoom | src/websocket.rs:187-202 | idempotent; a room counts as joined only after a successful wire join |
| PendingAcks.MessageBoxWebSocket.LeaveRoom | src/websocket.rs:208-217 | room and callback are gone whatever the wire does |
| AckShape.FailedEmitRemovesItselfOrNothing | src/websocket.rs:248-258 | under the connection lock, the rollback of a failed emit removes that call's own waiter, or finds the queue gone; every other queue and call is untouched |
| AckShape.CleanupEvictsOldest | src/client.rs:930-933 | a cleanup drops the oldest waiter of the room on the current socket, whoever owns it, and closes that call's channel if it still listens |
| AckCounting.StepKeepsInv | src/client.rs:913-938 | every step keeps waiters placed, queues non-empty and duplicate-free, the emitter's waiter youngest, and the counting bound |
| AckCounting.RunKeepsInv | src/client.rs:913-970 | the invariant holds after every interleaving of sends, acks, emit failures, timeouts, refusals, disconnects and reconnects |
| AckTheorems.NoWaiterLeaks | src/websocket.rs:137-150 | waiters queued plus calls won but not returned never exceed the sends in flight of the room; with none in flight the key is absent |
| AckTheorems.RegistriesAreWellFormed | src/websocket.rs:231-273 | in every reachable state no key maps to an empty queue and no waiter sits in two places |
| AckTheorems.ResolvedOnce | src/websocket.rs:137-150 | each waiter is resolved by at most one ack and never sits in a queue afterwards |
| AckTheorems.WonByAnAck | src/client.rs:926-927 | a channel holds a success only if a success ack of the same room and socket was spent on that very waiter |
| AckTheorems.LiveIsSound | src/client.rs:926-970 | `Live` results map injectively to success acks consumed for the same room on the same socket, whatever timeouts did to the queue; `OutcomeIff` has the converse |
| AckTheorems.OutcomeIff | src/client.rs:913-970 | what a call returns, over every run: `Live` exactly when it was polled after a success ack had resolved it, an error exactly when its own emit failed, the fallback exactly when it was polled without such an ack and then cleaned up |
| AckTheorems.AckedCallReturnsLive | src/client.rs:926-938 | after every run, polling a call whose channel holds a success makes it return `Live`, and polling any other makes it clean up |
| AckTheorems.DisconnectRefusesAll | src/websocket.rs:278-292 | after every run, a disconnect refuses every call that still listens on the connection and leaves no waiter behind |
| AckTheorems.LostForGood | src/client.rs:926-938 | a call whose channel was refused or dropped never returns `Live`, however the run continues |
| AckTheorems.CleanupHitsItsOwnIffOldest | src/websocket.rs:261-273 | a cleanup removes the caller's own waiter exactly when it is the oldest; otherwise the call that loses its waiter never returns `Live`; a refused call's own waiter is already gone |
| AckTheorems.TwoCanWait | src/client.rs:913-926 | a run reaches two calls waiting in one room, so the misalignment below is reachable |
| AckTheorems.TimeoutMisalignsTheQueue | src/websocket.rs:265-273 | when the younger of two calls times out the older loses its channel, and the next ack resolves nobody |
| AckFifo.QueueFollowsEmits | src/websocket.rs:231-259 | in an undisturbed room the resolved waiters followed by the queued ones are the emitted sends in emit order, then the one under way |
| AckFifo.AcksReachTheirCalls | src/websocket.rs:137-150 | in an undisturbed room each ack that found a waiter left its status in that call's channel |
| AckFifo.FifoCorrelation | src/websocket.rs:41-47 | in an undisturbed room the k-th ack resolves the k-th emitted send with that ack's status |
| AckFifo.LiveCallsAreTheAcked | src/client.rs:926-943 | in an undisturbed room, once the resolved calls have been polled, the `Live` calls are exactly those the success acks resolved |
| Envelope.UnwrappingLightens | src/encryption.rs:117-131 | taking a wrapper off makes the parsed value strictly lighter, so the recursion ends |
| Envelope.CoreExists | src/encryption.rs:108-143 | every body unwraps in finitely many steps to one that is no wrapper |
| Envelope.TypedAgreesWithUntyped | src/encryption.rs:170-176 | the typed and the untyped function return the same body at every nesting depth |
| Envelope.WrappersDoNotMatter | src/encryption.rs:202-217 | any number of `message` wrappers leaves the outcome unchanged |
| Envelope.InnermostDecides | src/encryption.rs:184-230 | over any chain of wrappers, the outcome is that of the innermost text; whatever is not decrypted comes back as the innermost text, byte for byte |
| Envelope.DecryptsIff | src/encryption.rs:53-230 | decrypted to `p` exactly when the innermost text is an object with a string `encryptedMessage` that decodes, the sender key is good and the wallet opens that ciphertext for that sender and originator to `p`; otherwise the innermost text, not authenticated |
| Envelope.UnchangedIff | src/encryption.rs:195-230 | decryption hands a body back as it was exactly when it is neither a wrapper nor an envelope that opens, or its innermost envelope holds the whole body again |
| DeliveryPaths.SplitRoundTrip | src/websocket.rs:296-313 | `{key}-{box}` splits back into key and box exactly when the 66-byte rule or the first-hyphen rule can see the boundary |
| DeliveryPaths.SplitMeans | src/websocket.rs:296-313 | every room id is split at exactly one place: behind 66 bytes if a hyphen follows them, else at the first hyphen, else nowhere |
| DeliveryPaths.UnwrapThenDecrypt | src/client.rs:1217-1228 | removing one wrapper before decrypting changes nothing |
| DeliveryPaths.PathsAgree | src/client.rs:1217-1238 | for any 66-byte identity key and any box, push and poll deliver the identical message: id, sender, recipient, box, body and flag |
| DeliveryPaths.DeliveredFields | src/client.rs:1217-1238 | a delivered message has the stored id and sender, the listener's key and box, and the text the wallet opened, flagged, or the innermost text, not flagged |
| DeliveryPaths.AckEventsAreNotMessages | src/websocket.rs:104-137 | no ack event is taken for a message |
| DedupWindow.BoundedIdSet.Insert | src/client.rs:1140-1157 | new ids are admitted and the oldest is evicted at capacity; set and order stay one window |
| DedupWindow.WindowIsRecentFirings | src/client.rs:1123-1157 | the set holds exactly the last `capacity` ids that fired, in order |
| DedupWindow.FiresIffNotRecent | src/client.rs:1064-1080 | an arrival fires exactly when its id is not among the last `capacity` firings |
| DedupWindow.ExactlyOnceWindow | src/client.rs:1064-1080 | any `capacity + 1` consecutive firings carry distinct ids |
| DedupWindow.FiredAreTheArrivals | src/client.rs:1064-1080 | the ids that fired are the ids that arrived |
| DedupWindow.FirstArrivalFires | src/client.rs:1064-1080 | the first arrival of every id fires at once |
| DedupWindow.SmallTracesAreDeduplicated | src/client.rs:1064-1080 | with at most `capacity` distinct ids the firings are the first occurrences, as with an unbounded set |
| DedupWindow.BoundIsReal | src/client.rs:1144-1148 | an id that has left the window fires again |
| Subscriptions.ReplaySubscriptions | src/client.rs:54-66 | a reconnect installs the registered callback of each room that could be joined again, and nothing else |
| Subscriptions.RunKeepsInv | src/client.rs:600-623 | on the registry and on every connection, live, being populated or replaced, a room's callback is one made for that room |
| Subscriptions.TaskEndsIff | src/client.rs:648-654 | a poll task has ended after a run exactly when one of its intervals found the room left |
| Subscriptions.OneWindow | src/client.rs:1064-1080 | from any state, while one callback gets all of a room's deliveries, by whatever connections and polls, the user sees what its one window passes on |
| Subscriptions.OneWindowPerRoom | src/client.rs:600-623 | over a whole run in which a room is listened to once, the callback is handed every delivery of every connection and poll, and the user sees what one window passes on |
| Subscriptions.ExactlyOnce | src/client.rs:600-697 | then firings at most 10000 apart have different ids, and with at most 10000 ids each fires once; the bound is the literal in the source |
| Subscriptions.EveryDeliveryFires | src/client.rs:600-697 | over every run, with any number of listens, leaves and reconnects, the ids the user has seen are exactly the ids delivered |
| Feeding.StepFeedsNobodyNew | src/client.rs:328-343 | without a new listen no step, the client's own join_room included, makes a callback one that can be fed |
| Feeding.StaysSpaced | src/client.rs:1064-1080 | while one callback can be fed, the firings of an id stay more than a window apart, whatever else arrives |
| Feeding.Feed | src/client.rs:643-697 | a callback that can be fed, by its task under the real stand-down decision, the registry or a connection, can be handed a new message without taking anyone else's feed away |
| Feeding.TwiceIffTwoFed | src/client.rs:600-697 | from every reachable state: a new id can fire twice within one window, without another listen, exactly when two callbacks of the room can be fed, among them every one whose task has not ended |
| Feeding.RelisteningCanDuplicate | src/client.rs:651-654 | after a leave, listening again leaves two callbacks fed exactly when the old task has not noticed the leave |
| Feeding.LeavingEndsTheTaskLater | src/client.rs:996-1006 | listening and leaving reaches such a state with the old task asleep, and its next interval ends it |
| Feeding.ListeningAgainTooSoon | src/client.rs:651-654 | a concrete run that listens again at once reaches two fed callbacks; with one interval in between it does not |
| Feeding.LeavingTwiceLeavesTwoFed | src/client.rs:980-1008 | listening and leaving again with no interval in between leaves two tasks that can still be fed in a room nobody has joined |
| Feeding.SwapMatchesRegistryIff | src/client.rs:36-70 | the connection swapped in has, room by room and on the whole, what the registry has exactly when the registry still is what the reconnect copied |
| Feeding.LeavingDuringReconnect | src/client.rs:54-68 | a room left while a reconnect is replaying agrees with the registry afterwards exactly when it was not replayed |
| PollTasks.IntervalDecides | src/client.rs:643-697 | anywhere in any run, the end of an interval ends the task if its room was left; otherwise it polls exactly when no connection handed the callback a message during the interval or the task has stood down seven times in a row |
| PollTasks.SkipsAreCounted | src/client.rs:1103-1112 | over every run the counter in the task is the number of intervals it has stood down in a row |
| PollTasks.ActivityIsPushes | src/client.rs:1086-1094 | over every run the activity counter is the number of messages connections handed to the callback; polls leave it alone |
| PollTasks.ClosedForGood | src/websocket.rs:278-292 | after a disconnect, or once a replaced connection is dropped, nothing is ever installed on it again and it delivers nothing more |
| PollBackstop.PollTask.PollShouldRun | src/client.rs:1103-1112 | skips exactly after an interval with pushes and fewer than 7 skips in a row; both counters follow |
| PollBackstop.PollTask.Loop | src/client.rs:643-697 | the task runs until the first interval that finds the room left, and its state is that of the run so far |
| PollBackstop.SkippedCountsTheStreak | src/client.rs:1103-1112 | the last `skipped` intervals were all skipped |
| PollBackstop.StreakIsCounted | src/client.rs:1103-1112 | a streak of skipped intervals is never longer than the counter says |
| PollBackstop.PollsIff | src/client.rs:1103-1112 | an interval polls exactly when nothing was pushed in it or the seven before it were all skipped |
| PollBackstop.HandedOver | src/client.rs:656-696 | the callback was handed exactly what was pushed and the pages of the intervals that polled |
| PollBackstop.NeverSkipsForLong | src/client.rs:1096-1102 | a quiet interval always polls, and any 8 intervals in a row contain a poll |
| PollBackstop.CatchUp | src/client.rs:656-696 | a message the relay returns to every poll has fired within 8 intervals, from the poll or earlier from push |
| PaymentRules.BuildOutput | src/http_ops.rs:349-430 | an output is built exactly when it meets the declarative rule of its protocol; `OutputMeans` says field by field what that is |
| PaymentRules.OutputMeans | src/http_ops.rs:349-430 | an output is accepted exactly when its index, protocol and remittance are as required, and then prefix, suffix, key, basket, instructions and tags each go, decoded or trimmed and lower-cased, to their own place |
| PaymentRules.BuildOutputs | src/http_ops.rs:346-431 | all outputs or none, in order |
| PaymentRules.BuildInternalizeArgs | src/http_ops.rs:333-440 | succeeds exactly when the whole payment is good, with one argument per output in the same order |
| PaymentRules.PaymentMeans | src/http_ops.rs:333-440 | a listed payment gives just the call with its transaction of 1 byte to 32 MiB, its 1 to 101 outputs and its description, or none |
| PaymentRules.DescriptionMeans | src/http_ops.rs:310-323 | a description passes exactly when it is not empty, has no white space at its ends and no control character, and fits 50 bytes |
| PaymentRules.TrimMeans | src/http_ops.rs:325-331 | trimming removes white space from both ends, up to the first other character from each |
| PaymentRules.ByteLenMeans | src/http_ops.rs:310-331 | lengths count UTF-8 bytes |
| PaymentRules.DefaultDescriptionIsGood | src/http_ops.rs:310-323 | the default description passes the check made of given ones |
| PaymentRules.ScanProtocols | src/peer_pay.rs:557-569 | finds whether any output is supported and the first unsupported label |
| PaymentRules.PrepareNotice | src/peer_pay.rs:519-659 | keeps, refuses or prepares a notification payment exactly as its declarative reading says |
| PaymentRules.NoticeMeans | src/peer_pay.rs:519-659 | a notification payment gives just the call with its own transaction, outputs and description, stays unread without transaction, outputs or any wallet-payment output, and is an error otherwise |
| PaymentRules.NoticeDropsNothing | src/peer_pay.rs:573-656 | a prepared notification has every output, in order, with its own index, prefix, suffix and key |
| PaymentRules.MixedProtocolsAreRefused | src/peer_pay.rs:557-569 | supported and unsupported protocols together are an error before any wallet call |
| PaymentRules.ValidatorsAgree | src/http_ops.rs:333-398 | on the two readings of a payment of wallet-payment outputs, the listing path accepts exactly what the notification path accepts within the listing caps, and both give the wallet the same transaction, description and outputs |
| ListMessages.ProcessListedBody | src/http_ops.rs:1334-1377 | the wallet is called at most once, exactly when payments are accepted and the whole payment is good; the outcome and body follow from the payment the body carries |
| ListMessages.SettlePayment | src/http_ops.rs:1342-1358 | the outcome of a split body and the wallet calls it takes |
| ListMessages.OutcomeMeans | src/http_ops.rs:1334-1377 | exactly when each of the six outcomes comes about, in terms of the stored body, the caller's choice and the wallet's answer, and that exactly a body without a payment or with an accepted one is safe |
| ListMessages.PayableMeans | src/http_ops.rs:261-440 | a stored body is payable with a call exactly when it is within 4 MiB and its non-null `payment` member reads as a payment that hands that call over |
| ListMessages.SplitMeans | src/http_ops.rs:261-308 | splitting finds the text to show, a non-null payment and the raw envelope exactly when there is one within the cap |
| ListMessages.ListingAgreesWithPush | src/http_ops.rs:1359-1368 | within 4 MiB listing yields the body and flag of the push path |
| ListMessages.RetryDataIsKept | src/http_ops.rs:240-259 | an unsafe outcome hands the exact raw body back; the legacy body is raw exactly when the outcome is unsafe, or the body is neither a wrapper nor an envelope that opens, or its innermost envelope holds the whole body again |
| ListMessages.UnsafeIsListedRaw | src/http_ops.rs:261-269 | an unsafe body is listed raw, or as the fixed marker text when it is over 4 MiB |
| ListMessages.LegacyFlagIsHonest | src/http_ops.rs:250-259 | the lite list marks a body authenticated exactly when the payment is safe and that body came from decryption |
| ListMessages.PlainTextComesBackRaw | src/http_ops.rs:271-278 | plain text is safe and comes back raw |
| ListMessages.SafeMeansStored | src/types.rs:376-381 | a safe outcome of a body with a payment means the wallet accepted a call with that payment's transaction and every output of it, field by field |
| HostMerge.ListFromHosts | src/http_ops.rs:1263-1291 | fails exactly when every host failed; one host's page comes as it is, several are joined and reduced to first occurrences |
| HostMerge.FlattenIsUnion | src/http_ops.rs:1269-1277 | the joined list has exactly the messages of the hosts that answered |
| HostMerge.FlattenInOrder | src/http_ops.rs:1269-1277 | pages are joined in the order in which hosts are visited, each as it was sent |
| HostMerge.FirstSeenKeepsEachIdOnce | src/http_ops.rs:1285-1290 | the filter keeps every id, each once, and invents nothing |
| HostMerge.FirstSeenIsOrdered | src/http_ops.rs:1285-1290 | what is kept is all the first occurrences in their original order |
| HostMerge.FirstHostWins | src/http_ops.rs:1269-1290 | of several hosts, the receipt kept of an id is the first one of the first host visited that lists it |
| HostMerge.MergeIgnoresHostOrder | src/http_ops.rs:1260-1291 | of what listing returns: every id of every host that answered; no id twice unless a single host sent it twice; the ids do not depend on the order hosts are visited in, nor do the receipts when hosts agree |
| HostMerge.SafeAcksLoseNoPayment | src/http_ops.rs:1384-1428 | when hosts agree on content, acknowledging exactly the safe receipts drops no payment the wallet did not accept whole |
| PeerPay.PeerPayClient.AcknowledgeMessage | src/http_ops.rs:1384-1428 | success when any host succeeded; exactly the copies that hosts removed are gone |
| PeerPay.PeerPayClient.InternalizePayment | src/peer_pay.rs:330-374 | stored exactly when prefix, suffix and sender key decode and the wallet accepted; `TokenArgsMean` has the call |
| PeerPay.TokenArgsMean | src/peer_pay.rs:343-363 | the call for a token has its transaction and one output: its index or 0, and its own prefix, suffix and sender, decoded |
| PeerPay.PeerPayClient.AcceptPayment | src/peer_pay.rs:316-327 | the effects in order, and success exactly when stored and acknowledged |
| PeerPay.PeerPayClient.RejectPayment | src/peer_pay.rs:400-419 | below 2000 only an acknowledgement; otherwise store, refund, acknowledge, stopping at the first failure |
| PeerPay.PeerPayClient.AcknowledgeNotification | src/peer_pay.rs:485-683 | the effects in order, and exactly when the answer is a stored payment, none, or an error |
| PeerPay.NoticeCallMeans | src/peer_pay.rs:494-656 | a notification makes the wallet call its non-null payment hands over, beside a `message` member, and no other |
| PeerPayRuns.WalletCallsAreOwn | src/peer_pay.rs:343-656 | every wallet call in a run is some attempt's own: the token's one output with its fields in their places, or the notification's payment |
| PeerPayRuns.LeftMeans | src/http_ops.rs:1384-1428 | a copy is left exactly when no acknowledgement that named its message was carried out by its host |
| PeerPayRuns.AckFollowsStorage | src/peer_pay.rs:316-419 | in any run every acknowledgement is some attempt's, for the message it was made on, and one that must store a payment had its own wallet call accepted first |
| CopySafety.PaymentSafety | src/peer_pay.rs:485-683 | in any run of attempts that are safe on a copy, listed or live, at every moment the copy is gone only after the wallet accepted every output of its own payment, while it was listed or in the acknowledging attempt |
| CopySafety.LostIff | src/peer_pay.rs:316-683 | for every kind of attempt on a copy with an unstored payment, and every source of its message: some answers drop the copy without its payment exactly when the attempt is not safe on it |
| CopySafety.LostIffUncovered | src/peer_pay.rs:316-683 | wherever the message came from and whatever hosts hold: some answers drop a copy without its payment exactly when the attempt need store nothing, or makes a call that does not cover the copy's payment |
| CopySafety.LiveIsDecrypted | src/client.rs:1217-1238 | push and poll show the decrypted text, with every wrapper and its payment gone |
| CopySafety.ListedWrappersAreSafe | src/peer_pay.rs:427-446 | any attempt on a listed wrapper that reads as no token is safe, unless listing stored its payment already |
| CopySafety.LiveTokenLosesTheWrapper | src/peer_pay.rs:279-301 | accepting a live token of another transaction drops its wrapper's copy with the payment the wallet never accepted |
| CopySafety.LossIsReachable | src/peer_pay.rs:279-327 | a lawful environment, a wrapper and a pushed token on which this happens |
| CopySafety.TokenSafety | src/peer_pay.rs:279-327 | a copy acted on as a payment token, listed or live, is gone only after an accepted call for the token its own body held as it was seen, with that token's fields and its sender |
| CopySafety.NoticeMustStoreIff | src/peer_pay.rs:494-513 | an unstored payment must be stored before its notification is acknowledged exactly when the body is within the cap and has a `message` member; otherwise it is acknowledged with no wallet call |
| CopySafety.CallsCoverThePayment | src/peer_pay.rs:661-674 | the wallet call of an attempt has the payment's transaction and every output of it, each with its own index, prefix, suffix and key |
| PeerPayRuns.AcksWithoutStoringIff | src/peer_pay.rs:494-513 | which attempts acknowledge without a wallet call: small rejections, and notifications that are no `message` wrapper with a payment |
| PeerPayRuns.UnwrappedPaymentIsAcknowledgedUnseen | src/peer_pay.rs:505-508 | a payment without a `message` member is acknowledged unseen, though listing reports it |
| PeerPayRuns.RefundTotal | src/peer_pay.rs:400-419 | over any retries the refunds add up to `amount - 1000` per attempt whose refund step succeeded, and to nothing below 2000 |
| PeerPayRuns.RejectionOrder | src/peer_pay.rs:412-418 | each refund directly follows an acceptance, each acknowledgement a successful refund, and below 2000 nothing but acknowledgements happens |
| PaymentRequests.ParseAll | src/payment_requests.rs:208-221 | splits the list into valid requests and ids of the rest, in order |
| PaymentRequests.CollectCancellations | src/payment_requests.rs:223-270 | the last verified cancellation per request id, and the ids of verified and refused ones |
| PaymentRequests.FilterActive | src/payment_requests.rs:278-376 | each remaining message lands in the bucket its fate names; the three missing-field branches cannot be taken; `ReturnedInOrder` has the fields |
| PaymentRequests.ListIncomingPaymentRequests | src/payment_requests.rs:196-392 | returns the active requests and acknowledges every other message, whichever pass dropped it |
| PaymentRequests.ParsingFirst | src/payment_requests.rs:209-221 | filtering out what does not parse before the other passes changes none of their results |
| PaymentRequestTheorems.ReturnedAndAckedPartition | src/payment_requests.rs:378-391 | ids returned plus ids acknowledged are the ids listed, as multisets |
| PaymentRequestTheorems.AckedIff | src/payment_requests.rs:378-391 | an id listed once is acknowledged exactly when its message is not returned |
| PaymentRequestTheorems.CancelMapIsLast | src/payment_requests.rs:260-264 | the map answers for the last verified cancellation of an id, wherever it sits in the list |
| PaymentRequestTheorems.ReturnedIff | src/payment_requests.rs:283-376 | a message is returned exactly when valid, proven, unexpired, in range and not cancelled by its own sender in the last verified cancellation of its id |
| PaymentRequestTheorems.ReturnedInOrder | src/payment_requests.rs:363-370 | the result is the order-preserving filter; message id, sender, request id, amount, description and expiry are each the listed message's own |
| PaymentRequestTheorems.ReturnedAreInRange | src/payment_requests.rs:325-370 | every record returned has its own amount within the limits and its own expiry not before now |
| PaymentRequestTheorems.LaterCancellationWins | src/payment_requests.rs:262 | a later verified cancellation by another sender takes the requester's out of force |
| PaymentRequestTheorems.PaymentWrapperIsAcknowledged | src/payment_requests.rs:204-391 | a listed message that carries a payment stays on the relay exactly when its body is within the cap and itself reads as an active request |
| BatchSend.GetMessageBoxQuoteMulti | src/permissions.rs:283-377 | quotes, blocked list, agent per host and totals, over every mix of answers |
| BatchSend.CreateMessagePaymentBatch | src/http_ops.rs:952-1150 | payment output i points at wallet output i and has its kind; which error comes when an identity key, a derived key or the transaction is missing; what the wallet is asked to create |
| BatchSend.SendMessageToRecipients | src/http_ops.rs:810-943 | a batch is made exactly when some sendable recipient has a positive delivery or recipient fee; what it comes to, the host and the payment of every send, and who is sent with which id, failed for which reason and blocked, with the totals |
| BatchTheorems.SuccessPaysWhatIsDue | src/http_ops.rs:846-942 | on success: without a batch nobody sendable has a positive fee; whenever one is due every send carries the payment; and what the wallet was asked for is the announced totals less the delivery fees that cannot be charged |
| BatchTheorems.FailureFailsAll | src/http_ops.rs:873-896 | a list send fails exactly when its batch does; then nothing is sent and every sendable recipient fails for that reason |
| BatchTheorems.BatchFailsIff | src/http_ops.rs:952-1150 | each cause of a failed batch: no identity key, a due fee whose key is missing, no transaction for fees that are due |
| BatchTheorems.CreatedIff | src/http_ops.rs:952-1150 | the wallet is asked for a transaction exactly when a batch is made, its keys are there and a fee is due |
| BatchTheorems.PaymentMeans | src/http_ops.rs:1093-1150 | the payment has the wallet's transaction and one entry per due fee, position by position with the delivery fee first, pointing at that fee's own output |
| BatchTheorems.OutputsMean | src/http_ops.rs:991-1111 | one output for each positive delivery fee with a known agent and each positive recipient fee, in order, for its amount and recipient |
| BatchTheorems.QuotesMean | src/permissions.rs:308-373 | every position's fees and status, from its host's answer alone |
| BatchTheorems.TotalsMean | src/permissions.rs:352-373 | the totals add up the fees of the quotes that are not blocked, each kind for itself |
| BatchTheorems.AgentsMean | src/permissions.rs:323-326 | the agent of a host is the last one an answer of that host named |
| BatchTheorems.HostMapMeans | src/http_ops.rs:833-844 | a recipient goes to the host of its last resolution |
| BatchTheorems.FeesMean | src/http_ops.rs:850-871 | each recipient is charged its own quote's fees, with the agent known for the host it now resolves to |
| BatchTheorems.SentMean | src/http_ops.rs:901-933 | sent are exactly the sends that answered with an id, in order, each with that id |
| BatchTheorems.FailedMean | src/http_ops.rs:901-933 | failed are exactly the sends that answered with an error, in order, each with that error |
| BatchTheorems.BlockedMean | src/permissions.rs:308-353 | blocked are exactly the positions without a readable quote or with a negative recipient fee, in order |
| BatchTheorems.SendableMean | src/http_ops.rs:824-831 | sent to are exactly the positions without a negative recipient fee, in order |
| BatchTheorems.OutputsAddUp | src/http_ops.rs:991-1111 | the outputs add up to the positive recipient fees plus the positive delivery fees with a known agent |
| BatchTheorems.TotalIsOverSendable | src/permissions.rs:352-373 | the announced total is the sum over exactly the quotes that are not blocked |
| BatchTheorems.QuotedIsChargedPlusUncharged | src/http_ops.rs:846-871 | announced total = charged total + the delivery fees that are negative or have no known agent, for every request |
| BatchTheorems.ChargesTheTotalIff | src/http_ops.rs:846-876 | charged and announced totals are equal exactly when the uncharged delivery fees add up to nothing |
| BatchTheorems.ChargesWhatWasQuoted | src/http_ops.rs:850-876 | with known agents, no negative delivery fee and stable resolution the batch charges exactly the announced total |
| BatchTheorems.BlockedAndSendable | src/permissions.rs:308-353 | blocked plus sendable recipients are all recipients plus those whose quote errored |
| BatchTheorems.SentOrFailed | src/http_ops.rs:901-933 | every sendable recipient is either sent or failed |
| BatchTheorems.EveryPositionIsReported | src/http_ops.rs:824-942 | every position is reported once, and once more exactly when its quote errored, on the error path too |
| IdempotentSend.ClassifyMeans | src/http_ops.rs:571-591 | an attempt succeeds exactly on the precise duplicate rejection, with its own id, or on a 2xx without a logical error, with the id the server names or else its own; which error any other answer is |
| IdempotentSend.RelayHost.SendMessage | src/http_ops.rs:514-590 | every answered attempt returns `Ok` with its id, the relay keeps the first message under an id, and this one is stored exactly when no other was there before |
| IdempotentSend.HoldsFirstArrivals | src/http_ops.rs:559-573 | a host holds exactly the messages that were first to arrive under their ids |
| IdempotentSend.CopiesCameFirst | src/http_ops.rs:559-573 | for every run a host's copies of a message are the ids it was the first to come under |
| IdempotentSend.CopiesAreTheIds | src/client.rs:887-966 | when nothing else comes under its ids, the copies are the ids it arrived under |
| IdempotentSend.OneCopyPerHost | src/client.rs:887-966 | over any interleaving of HTTP, live and fallback sends, a host that got a message keeps one copy exactly when all its arrivals came under one id |
| IdempotentSend.DerivedIdsLeaveOneCopy | src/client.rs:887-966 | under derived ids a host keeps one copy, under the id derived from body and recipient, if anything reached it and none otherwise |
| IdempotentSend.OneLetterOneBox | src/encryption.rs:232-260 | with derived ids that do not collide, a host stores of all messages with one body and recipient exactly the first to arrive: another recipient never costs a message its place, another box always does |
| IdempotentSend.ChosenIdDuplicatesIff | src/client.rs:940-966 | wherever in a run a send under a chosen id and a fallback reach a host, one copy remains exactly when the chosen id is the derived one and nothing else was used |
| IdempotentSend.OtherBoxIsNeverStored | src/encryption.rs:232-260 | the box is no part of a derived id, so a body already held for one box is not stored under it for another |

## Left out

- Encryption, HMAC, key derivation, transaction building and signing: parameters, or answers of the wallet.
- The JSON grammar and the field-by-field reading of requests and payments: parsing, printing and typed reading are parameters.
- Transport, handshake, keepalive, watchdog and the retry delays of the reconnect supervisor; a connection appears as an event that swaps it in.
- Overlay lookup and advertisement: the resolved host is an input.
- The fee payment for a single recipient, permission settings, device registration, the remote-wallet adapter and the notification wrappers, which delegate.
- Fixed-width integers: fees, totals, output indices and counters are unbounded, so overflow is not modelled.
- Cancelled futures and poisoned mutexes: every call that starts goes on to finish its steps.
- AckTheorems.NoWaiterLeaks: counts the socket that is current; one that was swapped out is dropped with what it still queues.
- AckFifo.FifoCorrelation: also asks that the server acks no send whose emit goes on to fail, since such an ack is consumed.
- DeliveryPaths.PathsAgree: strings are taken as sequences of UTF-8 bytes when a room id is split.
- DedupWindow.BoundedIdSet.Insert: a capacity of zero, which the source refuses with a panic, is a precondition of the constructor.
- PollBackstop.CatchUp: assumes that the polls made in those intervals succeed and that the room stays joined.
- HostMerge.SafeAcksLoseNoPayment: needs hosts that agree on the content of an id; a merge keeps only the first receipt of each.
- PaymentRules.ValidatorsAgree: takes the two typed readings of one payment as alike; a malformed insertion remittance, which the notification path does not read, makes the listing path refuse before any rule applies.
- IdempotentSend.OneCopyPerHost: asks that no other message comes to that host under its ids; `CopiesCameFirst` has no such condition.
- Subscriptions.ExactlyOnce: is about a room that was listened to once; `Feeding.TwiceIffTwoFed` has the boundary for every other run.
- CopySafety.PaymentSafety: asks that hosts agree on the content of an id, since an acknowledgement names the id alone; `LostIffUncovered` has the boundary for any copy under it.
- PaymentRequests.ListIncomingPaymentRequests: acknowledging is best effort in the source; the ids it asks for are the result here.
- Waiters are named by numbers instead of channel objects, so a dropped sender is an event on its name.
