# Verified models of a NATS server

This project models the parts of a NATS/JetStream server whose correctness is hardest to see from the code, and
proves what they are for. It covers six parts.

* **JetStream consumers.** The delivery and acknowledgement steps (`ConsumerState.dfy`, `Consumer.dfy`), one machine
  of a consumer and its stream for both policies (`ConsumerMachine.dfy`), what every run of it keeps
  (`ConsumerAccounts.dfy`), the floors of consumers with explicit acknowledgement (`ConsumerSafety.dfy`,
  `ConsumerRuns.dfy`) and their tightness (`ConsumerFloors.dfy`), purges (`ConsumerPurge.dfy`) and what they can lead
  to (`ConsumerInterest.dfy`), the expiry pass (`ConsumerExpiry.dfy`), what a turn of the delivery loop does with the
  redelivery queue (`ConsumerTurns.dfy`), and consumers that acknowledge everything up to
  a sequence (`ConsumerAckAll.dfy`, with their runs in `ConsumerAckAllRuns.dfy` and what limits do to them in
  `ConsumerAckAllLimits.dfy`). The queue of waiting requests as a linked list that refines a sequence
  (`WaitQueue.dfy`, `WaitQueueSpec.dfy`). Flow control (`FlowControl.dfy`). The reply subjects (`AckReply.dfy`).
* **The configuration language.** The lexer as a class of state methods (`ConfLexer.dfy`) over pure steps
  (`ConfLex.dfy`), the discipline that its stack and the stacks of the parser share (`ConfItems.dfy`,
  `ConfLexSafety.dfy`), the parser (`ConfParse.dfy`, `ConfParser.dfy`), the meaning of a configuration
  (`ConfTree.dfy`), when a key is left over (`ConfLeftover.dfy`), how numbers and blocks are read
  (`ConfReads.dfy`, `ConfNumbers.dfy`, `ConfBlocks.dfy`), strings with escapes (`ConfEscapes.dfy`), the round trip
  from a configuration to text and back (`ConfPrint.dfy`, `ConfRoundTrip.dfy`), and from values (`ConfValues.dfy`).
* **Cron schedules.** A proleptic Gregorian calendar (`Calendar.dfy`), the search for the next time
  (`CronSearch.dfy`), the fields (`CronField.dfy`) and both together (`Cron.dfy`); what written fields mean
  (`CronText.dfy`) and when a written pattern fires (`CronMeaning.dfy`).
* **Client connections.** The outbound buffers under every interleaving of queueing and flushing (`Outbound.dfy`,
  `Connection.dfy`), the fan-out of a message (`FanOut.dfy`) and who is sent it, by
  the kinds of the connections (`FanOutRules.dfy`).
* **The JWT directory.** The index, its order of use and its digest over all histories (`JwtIndex.dfy`,
  `Digest.dfy`), when tokens expire (`JwtExpiry.dfy`), the heap that implements it (`HeapOrder.dfy`,
  `JwtTracker.dfy`), merging of files (`JwtMerge.dfy`), and the files with the index beside them (`JwtStore.dfy`).
* **Weighted mappings and permission templates.** `WeightedMapping.dfy`, `SubjectTokens.dfy` and `Template.dfy`.

`Basics.dfy`, `Strings.dfy` and `Word64.dfy` hold what the others share: options, 64-bit wrap-around, decimal
numerals, splitting and masks. `dafny verify dfyconfig.toml` checks everything.

## Conventions

Where the source updates an object in place there is a class whose methods are proved against functions on its
contents; the properties of whole runs are lemmas about those functions. The order in which Go walks a map, what a
clock shows, what a socket accepts, whether a subscriber takes a message and what is drawn at random are parameters,
so each result holds for all of them. Sequences are natural numbers; where the source wraps around at 8 or 64 bits
and it matters (weights, integers with a suffix, reply numbers, redelivery counts, expiry times) so does the model.
Characters are one byte wide.

## Where the code does not do what it promises

Each of these has a theorem that says exactly when it happens, and where that does not name the inputs by itself there
is a lemma with a concrete case.

* A consumer that acknowledges everything up to a sequence keeps what is pending above its floor in every run if and
  only if deliveries are not limited or only one message may be pending, honest acknowledgements or not
  (`StrandsExactly`, whose proof builds the runs that fail). A limit of one delivery is enough only where
  acknowledgements are honest and no purge drops a pending message above one that stays. The two ways of settling a
  range agree on what is pending and queued, but not always on redelivery counts (`WalksAgreeOnCounts`,
  `WalkChoiceMatters`).
* A purge of a subject that is narrower than a consumer's filter can take the delivery floor past a delivery that
  nobody acknowledged (`PassedBy`): exactly when it drops a pending message above one that stays (`PurgeExactly`).
  The stream can then be told that it may drop a message which it holds and nobody acknowledged (`FirstGivenUp`);
  `GivesUpExactly` says after which purges.
* An integer with an unknown suffix, or a key right before a closing brace, leaves its key on the parser's stack,
  and an enclosing map may then be stored under the wrong key (`ParseLeftover`, a text); nothing of the kind happens
  if and only if everything is closed and every key is directly followed by a value that is stored
  (`LeftoverStream`, `ParseText`).
* Digits right before a closing bracket are read as a string that takes the bracket in (`BracketSwallowed`), as
  before any other character that does not end a number (`NumberExactly`, `SizeExactly`); after a hyphen they are
  not, unless a point or a size letter follows them (`NegativeLexes`).
* A block in parentheses whose closing parenthesis is the last character of the input keeps that parenthesis
  (`BlockExactly`).
* A source with a wildcard that is listed among its own destinations gets, beside its weight, what is missing of a
  hundred (`SourceGetsAll`, `FairExactly`); the loss that listing the source is meant to bring about comes only
  from listing it as it stands (`LossExactly`).
* Where entries of the JWT directory are to live for ever, one that is merely used falls due at once, because the
  expiry time wraps around (`UsedFallsDue`). The comment on `Merge` in `server/dirstore.go` says that it does not
  check whether a token is newer; the code does, and so does the model.
* A cron field is accepted and matches nothing if and only if it has only commas (`EmptyExactly`).
* Copies for queue groups do not follow the rules for plain subscriptions: a message from a route can go on to another
  route, and one from a leaf connection whose cluster has no name can come back to it (`QueuesCross`), exactly where a
  queue group settles on that connection (`CopyExactly`).
* Where an acknowledgement settles everything up to it, a message that the stream no longer holds leaves the redelivery
  queue without being settled if and only if it lies at or below a floor (`HeadStuck`).
* A purge always empties the redelivery queue, though the code filters it (`PurgeLeaves`).

## Model

| member | source | states |
|---|---|---|
| `ConsumerState.MoveAckFloor` | server/consumer.go:3746-3762 | only the floors change; `MoveKeeps`, `TakeTight` and `MoveKeepsAbove` say where they go |
| `ConsumerState.TakePending` | server/consumer.go:3664-3675 | exactly one entry leaves pending and nothing but the floors changes with it |
| `ConsumerState.RedeliverHead` | server/consumer.go:4787-4829 | each try shortens the redelivery queue, so the search for a redelivery ends |
| `ConsumerState.FirstLive` | server/consumer.go:4832-4889 | the least live sequence from the cursor on, or none before the limit |
| `ConsumerSafety.RemoveQueuedKeeps` | server/consumer.go:5903-5920 | taking a sequence out of the queue removes exactly it and keeps the queue free of repeats and equal to its index |
| `ConsumerSafety.MoveKeeps` | server/consumer.go:3746-3762 | settling any pending entry keeps both floors below everything pending and below the cursors |
| `ConsumerSafety.AckOneKeeps` | server/consumer.go:3607-3743 | an acknowledgement or termination of any sequence keeps the invariant of the whole state |
| `ConsumerSafety.AckOneFrame` | server/consumer.go:3607-3743 | it removes exactly the acknowledged sequence from pending and the counts, and a sequence not yet reached changes nothing |
| `ConsumerSafety.NakKeeps` | server/consumer.go:3124-3195 | a negative acknowledgement keeps the invariant |
| `ConsumerSafety.CheckPendingKeeps` | server/consumer.go:5923-6031 | the expiry pass keeps the invariant for every order in which the map is walked, though the floors move during the pass |
| `ConsumerSafety.NextMsgKeeps` | server/consumer.go:4783-4889 | what is picked is a pending entry that is no longer queued, or a fresh sequence just below the cursor and above everything pending |
| `ConsumerSafety.PutBackKeeps` | server/consumer.go:5339-5356 | putting a picked message back when no request is waiting keeps the invariant; a fresh one is where the cursor is again, a queued one is last in the queue and nothing else has left it |
| `ConsumerSafety.DeliverNextKeeps` | server/consumer.go:5318-5395 | one turn of the delivery loop keeps the invariant |
| `ConsumerPurge.PurgeExactly` | server/consumer.go:6404-6480 | a purge keeps what is pending above the stream floor; it keeps the whole invariant if and only if it does not get to its loop, or every pending message that stays lies above every one that is dropped, for every order of the walk and also where the purge is narrower than the filter |
| `ConsumerPurge.PurgeEachDrops` | server/consumer.go:6430-6462 | for every order: the walk drops exactly what lies below the floor or is gone from the stream, and the delivery floor ends at the highest delivery sequence dropped |
| `ConsumerPurge.PurgeLeaves` | server/consumer.go:6404-6480 | what any purge leaves pending, and that it always empties the redelivery queue |
| `ConsumerPurge.PurgeEndsAt` | server/consumer.go:6427-6465 | where both floors end after any purge: at the top if nothing is pending; otherwise the stream floor right below the purge, or where it was, and the delivery floor at the highest delivery dropped, or where it was |
| `ConsumerPurge.PurgeRecords` | server/consumer.go:6434-6465 | any purge leaves no redelivery on record if nothing is pending, and otherwise exactly those of what it does not drop |
| `ConsumerPurge.PurgeKeeps` | server/consumer.go:6404-6480 | a purge that covers the filter always keeps the invariant and leaves exactly the pending entries from the new first sequence on |
| `ConsumerExpiry.PassExactly` | server/consumer.go:5923-6031 | for every walk order the pass drops exactly what the stream no longer holds and what is due with its deliveries used up, and queues exactly what is due of the rest beside what was queued |
| `ConsumerExpiry.PassInOrder` | server/consumer.go:6003-6009 | for every walk order what the pass puts in the queue goes behind what is there, in ascending order |
| `ConsumerExpiry.PassFloors` | server/consumer.go:5957-5975 | for every walk order: no floor goes back, both pass everything the stream no longer holds, and both are at the top, with nothing queued, once nothing is pending |
| `ConsumerExpiry.SpentOnRecord` | server/consumer.go:2346-2351 | what the pass drops with its deliveries used up keeps a redelivery on record, for every walk order |
| `ConsumerExpiry.NakExactly` | server/consumer.go:3124-3195 | exactly the negative acknowledgements of an unsettled delivery above the floor have an effect: the message is queued last, or taken out of the queue when delayed |
| `ConsumerAccounts.StepSane` | server/consumer.go:5269-5395 | for both policies, acknowledgements with any delivery sequence and purges of any kind: every event keeps the queue and its index equal and within pending, the accounts of hand-outs, the cover of the stream and the limit on pending entries |
| `ConsumerAccounts.RunSane` | server/consumer.go:5269-5395 | so does every run |
| `ConsumerAccounts.ReachableSane` | server/consumer.go:6280-6287 | and so every state that any consumer reaches has them |
| `ConsumerAccounts.AtMostMaxDeliver` | server/consumer.go:2328-2356 | in every state that any consumer reaches, no sequence was handed out more than the delivery limit and no more are pending than the pending limit |
| `ConsumerAccounts.SettledForever` | server/consumer.go:4783-4889 | for any consumer: a sequence behind the cursor that is not pending (acknowledged, terminated, dropped, purged or skipped) is not pending and not handed out in any continuation |
| `ConsumerRuns.StepGood` | server/consumer.go:5269-5395 | for explicit acknowledgement: every event (publish, removal, turn, acknowledgement or termination, negative acknowledgement, expiry with any first sequence, and any purge that drops nothing above a message that stays) keeps the floors below everything pending, beside what `StepSane` keeps |
| `ConsumerRuns.RunGood` | server/consumer.go:5269-5395 | so does every run |
| `ConsumerRuns.ReachableGood` | server/consumer.go:6280-6287 | and so every state reachable that way from a start at any sequence has them |
| `ConsumerRuns.NothingUnsettledBelowFloor` | server/consumer.go:3746-3762 | in every state reached by such runs every pending entry lies strictly between the stream floor and cursor, its delivery sequence strictly between the delivery floor and cursor, and delivery sequences rise with stream sequences |
| `ConsumerRuns.NeedAckComplete` | server/consumer.go:3814-3876 | in every state reached by such runs interest is reported in every live match from the start on that is undelivered or pending; where it is denied the message was handed out and settled. `GivesUpExactly` says after which other purges this can fail |
| `ConsumerRuns.NeedAckExactly` | server/consumer.go:3814-3876 | in every state reached by such runs interest is reported exactly for what is undelivered, what is pending and what has a redelivery on record |
| `ConsumerRuns.RunReleased` | server/consumer.go:3859-3865 | for both policies and every run: what is delivered, not pending and without a redelivery on record stays so |
| `ConsumerRuns.AckReleases` | server/consumer.go:3663-3677 | with explicit acknowledgement, in every reachable state: after the acknowledgement of a delivered message the stream is told to let it go, then and in every continuation |
| `ConsumerRuns.RemovalReleases` | server/consumer.go:6804-6831 | so does the removal from the stream of a delivered message that is not pending |
| `ConsumerTurns.TurnLosesNone` | server/consumer.go:5339-5356 | a turn with or without a waiting request loses no queued entry: one still pending after it is still queued, or was handed out once more to the request and nothing else was; for both policies, where an acknowledgement settles everything up to it for what the stream holds |
| `ConsumerTurns.QueuedFirst` | server/consumer.go:4783-4889 | while a queued message that the stream holds may be delivered again, a waiting request gets a queued message and never a fresh one, and one that no such message stands before |
| `ConsumerTurns.NoneIdle` | server/consumer.go:4783-4889 | a waiting request goes without a message only if as much is pending as may be, or nothing queued may be delivered again and the stream has no message left for the consumer, and the cursor is then past its end |
| `ConsumerTurns.HandedInTurn` | server/consumer.go:5269-5395 | with explicit acknowledgement a message that waits at some place of the queue, that the stream holds and whose limit allows it, is handed out once more within one turn more than its place, if each finds a request waiting |
| `ConsumerTurns.HeadLeaves` | server/consumer.go:4783-4849 | the head of the queue is picked exactly if the stream holds it and its limit allows one more delivery, and otherwise only what is no longer pending leaves the queue with it |
| `ConsumerTurns.HeadStuck` | server/consumer.go:4812-4826 | where an acknowledgement settles everything up to it, an entry that the stream no longer holds leaves the queue unsettled if and only if it lies at or below a floor |
| `ConsumerTurns.DroppedWhenSpent` | server/consumer.go:2328-2356 | in every state reached by such runs a turn or an expiry pass drops an unsettled delivery only when its message was handed out as often as the limit allows, and then the stream is still told to keep it, or when the stream no longer holds it |
| `ConsumerInterest.GivesUpExactly` | server/consumer.go:6430-6462 | for every state of such a run and every purge: some continuation, with no more purges that drop above what stays, leads to the stream being told that it may drop a message which it holds, which was handed out and which nobody settled, if and only if the purge gets to its loop and leaves a live message without a redelivery on record below the last one dropped, and what was handed out next after that one, if anything, stays; never after a purge from below |
| `ConsumerInterest.RunSafe` | server/consumer.go:3746-3762 | a message that the delivery floor has passed is kept needed through every run from there by a redelivery on record, or by the floors having nothing to move to |
| `ConsumerInterest.PassedBy` | server/consumer.go:6445-6460 | a run of two deliveries and a purge of the second that takes the delivery floor past the first, which nobody acknowledged |
| `ConsumerInterest.FirstGivenUp` | server/consumer.go:3814-3876 | that run continued with one more delivery and its acknowledgement: the first message is live and pending, and the stream is told that it may drop it |
| `ConsumerFloors.LeastAboveFloor` | server/consumer.go:3746-3762 | with tight floors the entry one above the delivery floor is exactly the least pending one |
| `ConsumerFloors.SettleLeast` | server/consumer.go:3746-3762 | settling the least entry moves the stream floor to one below the next pending key and the delivery floor to one below its delivery sequence, whatever gaps redeliveries left |
| `ConsumerFloors.SettleLast` | server/consumer.go:3746-3762 | settling the only entry moves both floors to the last sequences handed out |
| `ConsumerFloors.SettleOther` | server/consumer.go:3746-3762 | settling any other entry moves no floor |
| `ConsumerFloors.RunTight` | server/consumer.go:3746-3762 | in every run in which expiry passes and purges, with any first sequence, find everything pending still in the stream, the least pending entry sits right above the delivery floor, and the floor is at the top when nothing is pending |
| `ConsumerAckAll.WalksAgree` | server/consumer.go:3678-3711 | the walk over the pending map, in any order, and the walk down the sequence range leave the same pending map and queue: exactly what lies above the acknowledged sequence |
| `ConsumerAckAll.WalksAgreeOnCounts` | server/consumer.go:3678-3711 | they leave the same redelivery counts if and only if no count in the range belongs to an entry that is no longer pending and that the downward walk gets to |
| `ConsumerAckAll.AnyOrderSettles` | server/consumer.go:3678-3711 | whatever order the map is walked in, an acknowledgement of everything up to a sequence leads to the same state |
| `ConsumerAckAll.AckUpToKeeps` | server/consumer.go:3678-3743 | an acknowledgement of everything up to a sequence removes exactly what it settles, whichever walk is taken, and keeps pending above the floor |
| `ConsumerAckAll.AckUpToReleases` | server/consumer.go:3678-3712 | after it the stream is told to keep exactly what lies above the acknowledged sequence and what has a redelivery on record, and nothing that it settled |
| `ConsumerAckAllRuns.CheckPendingKept` | server/consumer.go:5923-6031 | the expiry pass, with any first sequence, keeps everything pending above the stream floor where deliveries are not limited, only one message may be pending, or each was handed out once and both floors are below what is pending |
| `ConsumerAckAllRuns.AckKept` | server/consumer.go:3678-3743 | so does an acknowledgement, in the last case if it carries what was handed out for its message |
| `ConsumerAckAllRuns.TurnKept` | server/consumer.go:4783-4889 | so does a turn of the delivery loop, also where a queued message is gone from the stream and everything up to it is settled in its place |
| `ConsumerAckAllRuns.PurgeKept` | server/consumer.go:6405-6485 | so does a purge of any kind, in the last case if it drops nothing above what stays |
| `ConsumerAckAllRuns.StepKept` | server/consumer.go:5269-5395 | so does every event |
| `ConsumerAckAllRuns.RunKept` | server/consumer.go:5269-5395 | so does every such run, and the stream is told to keep every message that is undelivered or pending |
| `ConsumerAckAllLimits.MoveKeepsAbove` | server/consumer.go:3746-3762 | dropping an entry keeps everything pending above the floor if and only if the floor does not move on its account or nothing below it is pending |
| `ConsumerAckAllLimits.StrandsExactly` | server/consumer.go:3678-3762 | for every configuration, start, and whether or not acknowledgements must be honest and purges from below: some run over some stream takes the stream floor past an unsettled message if and only if the pending limit is not one and either the delivery limit is two or more, or it is one and acknowledgements need not be honest or purges need not be from below |
| `ConsumerAckAllLimits.WalkChoiceMatters` | server/consumer.go:3678-3711 | a run with a delivery limit of one after which the choice of walk decides whether the stream is told to keep a message |
| `ConsumerObject.Consumer.constructor` | server/consumer.go:6280-6287 | starts with floors one below the start and the invariant |
| `ConsumerObject.Consumer.RemoveFromRedeliverQueue` | server/consumer.go:5903-5920 | the loop removes the first occurrence and says whether there was one |
| `ConsumerObject.Consumer.MoveFloors` | server/consumer.go:3746-3762 | the scan for the next pending key moves the floors as specified |
| `ConsumerObject.Consumer.Take` | server/consumer.go:3664-3675 | removes an entry and moves the floors |
| `ConsumerObject.Consumer.ProcessAckMsg` | server/consumer.go:3607-3743 | both acknowledgement policies, with the shorter of the two walks; keeps the invariants of both |
| `ConsumerObject.Consumer.AckOnly` | server/consumer.go:3630-3676 | the explicit branch: one entry and the floors |
| `ConsumerObject.Consumer.AckThrough` | server/consumer.go:3678-3711 | the branch for everything up to a sequence: either walk leads to the state that `AnyOrderSettles` is about |
| `ConsumerObject.Consumer.ForgetPending` | server/consumer.go:3701-3706 | the walk over the map in some order |
| `ConsumerObject.Consumer.ForgetRange` | server/consumer.go:3707-3711 | the walk down the range, stopping when nothing is pending |
| `ConsumerObject.Consumer.ProcessNak` | server/consumer.go:3124-3195 | as specified by `Nak`; keeps the invariant |
| `ConsumerObject.Consumer.HasMaxDeliveries` | server/consumer.go:2328-2356 | says whether deliveries are used up and cleans up exactly then |
| `ConsumerObject.Consumer.CheckPending` | server/consumer.go:5923-6031 | the pass in some order; keeps the invariant |
| `ConsumerObject.Consumer.GetNextMsg` | server/consumer.go:4783-4889 | picks what the specification picks, redeliveries first; keeps the invariants of both policies |
| `ConsumerObject.Consumer.SettleGone` | server/consumer.go:4813-4826 | a queued message that is gone from the stream is settled as the policy says |
| `ConsumerObject.Consumer.DeliverMsg` | server/consumer.go:5609-5665 | the message gets the next delivery sequence and keeps its first one if pending |
| `ConsumerObject.Consumer.HandOver` | server/consumer.go:5339-5395 | hands a picked message out; one that no request takes is found at the cursor or in the queue again |
| `ConsumerObject.Consumer.LoopAndGather` | server/consumer.go:5318-5395 | a turn; keeps the invariants of both policies; no entry leaves the queue unsettled except one that the stream still holds and a waiting request gets, or, where an acknowledgement settles everything up to it, one that the stream no longer holds |
| `ConsumerObject.Consumer.Purge` | server/consumer.go:6405-6485 | any purge: the loop does what the walk does, the invariant is kept exactly under the condition of `PurgeExactly`, the queue is emptied, and what every run keeps is kept |
| `ConsumerObject.Consumer.NeedAckFor` | server/consumer.go:3814-3876 | the leader answers as the predicate that `NeedAckExactly` is about, and with explicit acknowledgement and the floors below everything pending exactly for what is undelivered, pending or has a redelivery on record; a follower that reads what a leader stored answers as that leader did; without a store, or with an unreadable one, as the source falls back |
| `WaitQueueSpec.InsertAt` | server/consumer.go:4168-4199 | inserting leaves the others in their order |
| `WaitQueueSpec.InsertFifo` | server/consumer.go:4168-4199 | the new request stands behind exactly those whose priority number is not larger |
| `WaitQueueSpec.InsertSorted` | server/consumer.go:4014-4024 | a queue sorted by priority stays sorted |
| `WaitQueueSpec.InsertContents` | server/consumer.go:4168-4199 | nothing is lost or duplicated |
| `WaitQueueSpec.PopAndRequeueKeeps` | server/consumer.go:4135-4166 | a pop keeps the order; the other requests stay once each, and the head stays, served once more, unless that was its last delivery |
| `WaitQueueSpec.PopMoves` | server/consumer.go:4135-4166 | a head with more to get goes behind the other requests of its priority and ahead of all others; one on its last delivery leaves |
| `WaitQueueSpec.ServeGroup` | server/consumer.go:4135-4166 | as many pops as there are requests in the front part of the best priority serve exactly those; those with more to get stand behind the rest of the group, in their order |
| `WaitQueueSpec.RoundRobin` | server/consumer.go:4135-4166 | for every m up to the number of requests of the best priority, m pops serve the first m of them exactly once each, in order, whatever each has left; behind the others of the group then stand those with more to get, in their order, and after them everything else as it was |
| `WaitQueueSpec.PopOwed` | server/consumer.go:4135-4166 | a pop takes exactly one delivery off what is owed, and off its own request |
| `WaitQueueSpec.ServedInFull` | server/consumer.go:4135-4166 | as many pops as are owed in all empty the queue, whatever the priorities, and serve each reply subject as often as was owed to it |
| `WaitQueueSpec.UngroupedLast` | server/consumer.go:4168-4198 | a request without a priority goes behind all others |
| `WaitQueueSpec.AgainAll` | server/consumer.go:4135-4166 | where all have more to get, a whole round leaves the order of the queue as it was |
| `WaitQueueList.ChainedApart` | server/consumer.go:4014-4062 | a list that follows its links visits no request twice, so it is acyclic |
| `WaitQueueList.WaitQueue.Add` | server/consumer.go:4041-4062 | appends exactly when not full; tail and count stay right |
| `WaitQueueList.WaitQueue.FindPlace` | server/consumer.go:4174-4186 | the walk along the links ends at the place of the priority in the view |
| `WaitQueueList.WaitQueue.InsertAtPosition` | server/consumer.go:4168-4199 | relinking inserts into the view at the place of the priority |
| `WaitQueueList.WaitQueue.AddPrioritized` | server/consumer.go:4026-4039 | inserts by priority exactly when not full |
| `WaitQueueList.WaitQueue.Remove` | server/consumer.go:4207-4227 | unlinks exactly the request named; head, tail and count stay right |
| `WaitQueueList.WaitQueue.Cycle` | server/consumer.go:4093-4101 | the head goes last |
| `WaitQueueList.WaitQueue.PopHead` | server/consumer.go:4116-4133 | serves the head once and removes it on its last delivery |
| `WaitQueueList.WaitQueue.PopAndRequeueHead` | server/consumer.go:4135-4166 | the linked list does what `PopAndRequeue` does to the sequence |
| `WaitQueueList.WaitQueue.IsFull` | server/consumer.go:4064-4069 | full exactly when the view has the maximal length |
| `FlowControl.NeverWedges` | server/consumer.go:5677-5741 | in every run from any limit of at least one: the window stays between one and its limit, the covered bytes between zero and the outstanding ones, a closed gate means a request is outstanding, and its answer opens the gate and never takes back more than was sent |
| `FlowControl.RunKeeps` | server/consumer.go:5615-5775 | the invariant of every run |
| `FlowControl.Balance` | server/consumer.go:5615-5741 | in every run what is outstanding is what was sent less what was answered |
| `FlowControl.Doubles` | server/consumer.go:5706-5711 | in every run the window is the one it started with, doubled once for each answer to the request outstanding, up to its limit |
| `FlowControl.FullyGrown` | server/consumer.go:5706-5711 | five answers open the window to its limit, whatever that is; four do, from a limit of sixteen on, if and only if it is a multiple of sixteen |
| `FlowControl.Controller.NeedFlowControl` | server/consumer.go:5677-5695 | when a request must go out, and when the outstanding one covers one more message |
| `FlowControl.Controller.DeliverMsg` | server/consumer.go:5615-5651 | sending keeps the invariant |
| `FlowControl.Controller.ProcessFlowControl` | server/consumer.go:5697-5741 | an answer, matching or not, keeps the invariant |
| `AckReply.ParseAckReplyNum` | server/consumer.go:6054-6065 | the loop computes the wrapped value of the digits, or minus one for anything else |
| `AckReply.DecimalValue` | server/consumer.go:6054-6065 | the digits of a number below 2^63 have its value |
| `AckReply.TemplateIs` | server/consumer.go:1373-1398 | formatting the template once leaves names escaped and one verb per number, whatever percent signs the names hold |
| `AckReply.ReplyIs` | server/consumer.go:5476-5481 | formatting it again gives exactly the names and the numbers, one token each |
| `AckReply.Tokens` | server/consumer.go:6073-6085 | the scan cuts the subject at its dots |
| `AckReply.AckReplyInfo` | server/consumer.go:6073-6098 | reads the five numbers off a subject of nine tokens, or of eleven and more, and nothing off any other |
| `AckReply.RoundTripV1` | server/consumer.go:5476-5481 | a reply of the nine-token form is read back as the five numbers written, for all dot-free names and all numbers below 2^63 |
| `AckReply.RoundTripV2` | server/consumer.go:5476-5481 | so is one of the eleven-token form, for every dot-free domain |
| `ConfLexSafety.LexTopSafe` | conf/lex.go:257-291 | at the top level: whatever comes next, at most one item is sent and the stacks of the parser can take it, the next state fits the stacks of both, and the lexer gets ahead |
| `ConfLexSafety.LexTopValueEndSafe` | conf/lex.go:296-319 | after a top-level value: whatever comes next, at most one item is sent and the stacks of the parser can take it, the next state fits the stacks of both, and the lexer gets ahead |
| `ConfLexSafety.LexBlockStartSafe` | conf/lex.go:321-358 | in a braced top level: whatever comes next, at most one item is sent and the stacks of the parser can take it, the next state fits the stacks of both, and the lexer gets ahead |
| `ConfLexSafety.LexBlockValueEndSafe` | conf/lex.go:363-389 | after a value in one: whatever comes next, at most one item is sent and the stacks of the parser can take it, the next state fits the stacks of both, and the lexer gets ahead |
| `ConfLexSafety.LexBlockEndSafe` | conf/lex.go:393-418 | after its closing brace: whatever comes next, at most one item is sent and the stacks of the parser can take it, the next state fits the stacks of both, and the lexer gets ahead |
| `ConfLexSafety.LexKeyStartSafe` | conf/lex.go:422-440 | before a key: whatever comes next, at most one item is sent and the stacks of the parser can take it, the next state fits the stacks of both, and the lexer gets ahead |
| `ConfLexSafety.LexQuotedKeySafe` | conf/lex.go:443-476 | in a quoted key: whatever comes next, at most one item is sent and the stacks of the parser can take it, the next state fits the stacks of both, and the lexer gets ahead |
| `ConfLexSafety.LexKeySafe` | conf/lex.go:587-599 | in a key: whatever comes next, at most one item is sent and the stacks of the parser can take it, the next state fits the stacks of both, and the lexer gets ahead |
| `ConfLexSafety.LexKeyEndSafe` | conf/lex.go:604-618 | after a key: whatever comes next, at most one item is sent and the stacks of the parser can take it, the next state fits the stacks of both, and the lexer gets ahead |
| `ConfLexSafety.LexIncludeStartSafe` | conf/lex.go:495-504 | after `include`: whatever comes next, at most one item is sent and the stacks of the parser can take it, the next state fits the stacks of both, and the lexer gets ahead |
| `ConfLexSafety.LexIncludeSafe` | conf/lex.go:559-583 | before the path: whatever comes next, at most one item is sent and the stacks of the parser can take it, the next state fits the stacks of both, and the lexer gets ahead |
| `ConfLexSafety.LexIncludeQuotedSafe` | conf/lex.go:507-538 | in a quoted path: whatever comes next, at most one item is sent and the stacks of the parser can take it, the next state fits the stacks of both, and the lexer gets ahead |
| `ConfLexSafety.LexIncludeStringSafe` | conf/lex.go:541-554 | in a bare path: whatever comes next, at most one item is sent and the stacks of the parser can take it, the next state fits the stacks of both, and the lexer gets ahead |
| `ConfLexSafety.LexValueSafe` | conf/lex.go:623-663 | before a value: whatever comes next, at most one item is sent and the stacks of the parser can take it, the next state fits the stacks of both, and the lexer gets ahead |
| `ConfLexSafety.LexQuotedStringSafe` | conf/lex.go:906-923 | in a single-quoted string: whatever comes next, at most one item is sent and the stacks of the parser can take it, the next state fits the stacks of both, and the lexer gets ahead |
| `ConfLexSafety.LexDubQuotedStringSafe` | conf/lex.go:928-948 | in a double-quoted string: whatever comes next, at most one item is sent and the stacks of the parser can take it, the next state fits the stacks of both, and the lexer gets ahead |
| `ConfLexSafety.LexStringSafe` | conf/lex.go:951-981 | in a bare string: whatever comes next, at most one item is sent and the stacks of the parser can take it, the next state fits the stacks of both, and the lexer gets ahead |
| `ConfLexSafety.LexBlockSafe` | conf/lex.go:986-1017 | in a parenthesised block: whatever comes next, at most one item is sent and the stacks of the parser can take it, the next state fits the stacks of both, and the lexer gets ahead |
| `ConfLexSafety.LexStringEscapeSafe` | conf/lex.go:1021-1039 | after a backslash: whatever comes next, at most one item is sent and the stacks of the parser can take it, the next state fits the stacks of both, and the lexer gets ahead |
| `ConfLexSafety.LexStringBinarySafe` | conf/lex.go:1043-1059 | in a hexadecimal escape: whatever comes next, at most one item is sent and the stacks of the parser can take it, the next state fits the stacks of both, and the lexer gets ahead |
| `ConfLexSafety.LexNumberSafe` | conf/lex.go:1079-1103 | in a number: whatever comes next, at most one item is sent and the stacks of the parser can take it, the next state fits the stacks of both, and the lexer gets ahead |
| `ConfLexSafety.LexConvenientNumberSafe` | conf/lex.go:1106-1120 | in a size suffix: whatever comes next, at most one item is sent and the stacks of the parser can take it, the next state fits the stacks of both, and the lexer gets ahead |
| `ConfLexSafety.LexDateSafe` | conf/lex.go:1124-1147 | in a date: whatever comes next, at most one item is sent and the stacks of the parser can take it, the next state fits the stacks of both, and the lexer gets ahead |
| `ConfLexSafety.LexNegNumberSafe` | conf/lex.go:1165-1178 | after a minus sign: whatever comes next, at most one item is sent and the stacks of the parser can take it, the next state fits the stacks of both, and the lexer gets ahead |
| `ConfLexSafety.LexFloatSafe` | conf/lex.go:1193-1207 | after a decimal point: whatever comes next, at most one item is sent and the stacks of the parser can take it, the next state fits the stacks of both, and the lexer gets ahead |
| `ConfLexSafety.LexIPAddrSafe` | conf/lex.go:1210-1218 | in an address: whatever comes next, at most one item is sent and the stacks of the parser can take it, the next state fits the stacks of both, and the lexer gets ahead |
| `ConfLexSafety.LexArrayValueSafe` | conf/lex.go:667-692 | before an element: whatever comes next, at most one item is sent and the stacks of the parser can take it, the next state fits the stacks of both, and the lexer gets ahead |
| `ConfLexSafety.LexArrayValueEndSafe` | conf/lex.go:696-719 | after an element: whatever comes next, at most one item is sent and the stacks of the parser can take it, the next state fits the stacks of both, and the lexer gets ahead |
| `ConfLexSafety.LexArrayEndSafe` | conf/lex.go:723-727 | at a closing bracket: whatever comes next, at most one item is sent and the stacks of the parser can take it, the next state fits the stacks of both, and the lexer gets ahead |
| `ConfLexSafety.LexMapKeyStartSafe` | conf/lex.go:732-769 | before a key of a map: whatever comes next, at most one item is sent and the stacks of the parser can take it, the next state fits the stacks of both, and the lexer gets ahead |
| `ConfLexSafety.LexMapQuotedKeySafe` | conf/lex.go:772-796 | in a quoted key of a map: whatever comes next, at most one item is sent and the stacks of the parser can take it, the next state fits the stacks of both, and the lexer gets ahead |
| `ConfLexSafety.LexMapKeySafe` | conf/lex.go:799-812 | in a key of a map: whatever comes next, at most one item is sent and the stacks of the parser can take it, the next state fits the stacks of both, and the lexer gets ahead |
| `ConfLexSafety.LexMapKeyEndSafe` | conf/lex.go:817-828 | after a key of a map: whatever comes next, at most one item is sent and the stacks of the parser can take it, the next state fits the stacks of both, and the lexer gets ahead |
| `ConfLexSafety.LexMapValueSafe` | conf/lex.go:833-846 | before a value of a map: whatever comes next, at most one item is sent and the stacks of the parser can take it, the next state fits the stacks of both, and the lexer gets ahead |
| `ConfLexSafety.LexMapValueEndSafe` | conf/lex.go:850-873 | after a value of a map: whatever comes next, at most one item is sent and the stacks of the parser can take it, the next state fits the stacks of both, and the lexer gets ahead |
| `ConfLexSafety.LexMapEndSafe` | conf/lex.go:877-881 | at a closing brace: whatever comes next, at most one item is sent and the stacks of the parser can take it, the next state fits the stacks of both, and the lexer gets ahead |
| `ConfLexSafety.LexCommentStartSafe` | conf/lex.go:1222-1228 | at a comment: whatever comes next, at most one item is sent and the stacks of the parser can take it, the next state fits the stacks of both, and the lexer gets ahead |
| `ConfLexSafety.LexCommentSafe` | conf/lex.go:1231-1239 | in a comment: whatever comes next, at most one item is sent and the stacks of the parser can take it, the next state fits the stacks of both, and the lexer gets ahead |
| `ConfLexSafety.EndRawStringSafe` | conf/lex.go:951-981 | the same for the end of a bare string, which becomes a boolean, a variable or a string |
| `ConfLexSafety.LexDigitSafe` | conf/lex.go:1065-1074 | the same where a digit must come |
| `ConfLexSafety.StepSafe` | conf/lex.go:257-1247 | the same for every state and every input: this is the invariant of the lexer |
| `ConfLexSafety.Stacked` | conf/lex.go:147-155 | in every state that may pop, the stack is not empty, so the empty-stack branch is never reached |
| `ConfLexSafety.Quiet` | conf/lex.go:120-129 | a step that sends nothing does not stop and gets ahead, so asking for an item ends |
| `ConfLexer.Lexer.LexTop` | conf/lex.go:257-291 | the in-place state function makes a safe step: at most one item is sent and the stacks of the parser can take it, the next state fits the stacks of both, and the lexer gets ahead; it is the step of the pure machine |
| `ConfLexer.Lexer.LexTopValueEnd` | conf/lex.go:296-319 | the in-place state function makes a safe step: at most one item is sent and the stacks of the parser can take it, the next state fits the stacks of both, and the lexer gets ahead; it is the step of the pure machine |
| `ConfLexer.Lexer.LexBlockStart` | conf/lex.go:321-358 | the in-place state function makes a safe step: at most one item is sent and the stacks of the parser can take it, the next state fits the stacks of both, and the lexer gets ahead; it is the step of the pure machine |
| `ConfLexer.Lexer.LexBlockValueEnd` | conf/lex.go:363-389 | the in-place state function makes a safe step: at most one item is sent and the stacks of the parser can take it, the next state fits the stacks of both, and the lexer gets ahead; it is the step of the pure machine |
| `ConfLexer.Lexer.LexBlockEnd` | conf/lex.go:393-418 | the in-place state function makes a safe step: at most one item is sent and the stacks of the parser can take it, the next state fits the stacks of both, and the lexer gets ahead; it is the step of the pure machine |
| `ConfLexer.Lexer.LexKeyStart` | conf/lex.go:422-440 | the in-place state function makes a safe step: at most one item is sent and the stacks of the parser can take it, the next state fits the stacks of both, and the lexer gets ahead; it is the step of the pure machine |
| `ConfLexer.Lexer.LexQuotedKey` | conf/lex.go:443-476 | the in-place state function makes a safe step: at most one item is sent and the stacks of the parser can take it, the next state fits the stacks of both, and the lexer gets ahead; it is the step of the pure machine |
| `ConfLexer.Lexer.LexKey` | conf/lex.go:587-599 | the in-place state function makes a safe step: at most one item is sent and the stacks of the parser can take it, the next state fits the stacks of both, and the lexer gets ahead; it is the step of the pure machine |
| `ConfLexer.Lexer.LexKeyEnd` | conf/lex.go:604-618 | the in-place state function makes a safe step: at most one item is sent and the stacks of the parser can take it, the next state fits the stacks of both, and the lexer gets ahead; it is the step of the pure machine |
| `ConfLexer.Lexer.LexIncludeStart` | conf/lex.go:495-504 | the in-place state function makes a safe step: at most one item is sent and the stacks of the parser can take it, the next state fits the stacks of both, and the lexer gets ahead; it is the step of the pure machine |
| `ConfLexer.Lexer.LexInclude` | conf/lex.go:559-583 | the in-place state function makes a safe step: at most one item is sent and the stacks of the parser can take it, the next state fits the stacks of both, and the lexer gets ahead; it is the step of the pure machine |
| `ConfLexer.Lexer.LexIncludeQuoted` | conf/lex.go:507-538 | the in-place state function makes a safe step: at most one item is sent and the stacks of the parser can take it, the next state fits the stacks of both, and the lexer gets ahead; it is the step of the pure machine |
| `ConfLexer.Lexer.LexIncludeString` | conf/lex.go:541-554 | the in-place state function makes a safe step: at most one item is sent and the stacks of the parser can take it, the next state fits the stacks of both, and the lexer gets ahead; it is the step of the pure machine |
| `ConfLexer.Lexer.LexValue` | conf/lex.go:623-663 | the in-place state function makes a safe step: at most one item is sent and the stacks of the parser can take it, the next state fits the stacks of both, and the lexer gets ahead; it is the step of the pure machine |
| `ConfLexer.Lexer.LexQuotedString` | conf/lex.go:906-923 | the in-place state function makes a safe step: at most one item is sent and the stacks of the parser can take it, the next state fits the stacks of both, and the lexer gets ahead; it is the step of the pure machine |
| `ConfLexer.Lexer.LexDubQuotedString` | conf/lex.go:928-948 | the in-place state function makes a safe step: at most one item is sent and the stacks of the parser can take it, the next state fits the stacks of both, and the lexer gets ahead; it is the step of the pure machine |
| `ConfLexer.Lexer.LexString` | conf/lex.go:951-981 | the in-place state function makes a safe step: at most one item is sent and the stacks of the parser can take it, the next state fits the stacks of both, and the lexer gets ahead; it is the step of the pure machine |
| `ConfLexer.Lexer.LexBlock` | conf/lex.go:986-1017 | the in-place state function makes a safe step: at most one item is sent and the stacks of the parser can take it, the next state fits the stacks of both, and the lexer gets ahead; it is the step of the pure machine |
| `ConfLexer.Lexer.LexStringEscape` | conf/lex.go:1021-1039 | the in-place state function makes a safe step: at most one item is sent and the stacks of the parser can take it, the next state fits the stacks of both, and the lexer gets ahead; it is the step of the pure machine |
| `ConfLexer.Lexer.LexStringBinary` | conf/lex.go:1043-1059 | the in-place state function makes a safe step: at most one item is sent and the stacks of the parser can take it, the next state fits the stacks of both, and the lexer gets ahead; it is the step of the pure machine |
| `ConfLexer.Lexer.LexNumber` | conf/lex.go:1079-1103 | the in-place state function makes a safe step: at most one item is sent and the stacks of the parser can take it, the next state fits the stacks of both, and the lexer gets ahead; it is the step of the pure machine |
| `ConfLexer.Lexer.LexConvenientNumber` | conf/lex.go:1106-1120 | the in-place state function makes a safe step: at most one item is sent and the stacks of the parser can take it, the next state fits the stacks of both, and the lexer gets ahead; it is the step of the pure machine |
| `ConfLexer.Lexer.LexDateAfterYear` | conf/lex.go:1124-1147 | the in-place state function makes a safe step: at most one item is sent and the stacks of the parser can take it, the next state fits the stacks of both, and the lexer gets ahead; it is the step of the pure machine |
| `ConfLexer.Lexer.LexNegNumber` | conf/lex.go:1165-1178 | the in-place state function makes a safe step: at most one item is sent and the stacks of the parser can take it, the next state fits the stacks of both, and the lexer gets ahead; it is the step of the pure machine |
| `ConfLexer.Lexer.LexFloat` | conf/lex.go:1193-1207 | the in-place state function makes a safe step: at most one item is sent and the stacks of the parser can take it, the next state fits the stacks of both, and the lexer gets ahead; it is the step of the pure machine |
| `ConfLexer.Lexer.LexIPAddr` | conf/lex.go:1210-1218 | the in-place state function makes a safe step: at most one item is sent and the stacks of the parser can take it, the next state fits the stacks of both, and the lexer gets ahead; it is the step of the pure machine |
| `ConfLexer.Lexer.LexArrayValue` | conf/lex.go:667-692 | the in-place state function makes a safe step: at most one item is sent and the stacks of the parser can take it, the next state fits the stacks of both, and the lexer gets ahead; it is the step of the pure machine |
| `ConfLexer.Lexer.LexArrayValueEnd` | conf/lex.go:696-719 | the in-place state function makes a safe step: at most one item is sent and the stacks of the parser can take it, the next state fits the stacks of both, and the lexer gets ahead; it is the step of the pure machine |
| `ConfLexer.Lexer.LexArrayEnd` | conf/lex.go:723-727 | the in-place state function makes a safe step: at most one item is sent and the stacks of the parser can take it, the next state fits the stacks of both, and the lexer gets ahead; it is the step of the pure machine |
| `ConfLexer.Lexer.LexMapKeyStart` | conf/lex.go:732-769 | the in-place state function makes a safe step: at most one item is sent and the stacks of the parser can take it, the next state fits the stacks of both, and the lexer gets ahead; it is the step of the pure machine |
| `ConfLexer.Lexer.LexMapQuotedKey` | conf/lex.go:772-796 | the in-place state function makes a safe step: at most one item is sent and the stacks of the parser can take it, the next state fits the stacks of both, and the lexer gets ahead; it is the step of the pure machine |
| `ConfLexer.Lexer.LexMapKey` | conf/lex.go:799-812 | the in-place state function makes a safe step: at most one item is sent and the stacks of the parser can take it, the next state fits the stacks of both, and the lexer gets ahead; it is the step of the pure machine |
| `ConfLexer.Lexer.LexMapKeyEnd` | conf/lex.go:817-828 | the in-place state function makes a safe step: at most one item is sent and the stacks of the parser can take it, the next state fits the stacks of both, and the lexer gets ahead; it is the step of the pure machine |
| `ConfLexer.Lexer.LexMapValue` | conf/lex.go:833-846 | the in-place state function makes a safe step: at most one item is sent and the stacks of the parser can take it, the next state fits the stacks of both, and the lexer gets ahead; it is the step of the pure machine |
| `ConfLexer.Lexer.LexMapValueEnd` | conf/lex.go:850-873 | the in-place state function makes a safe step: at most one item is sent and the stacks of the parser can take it, the next state fits the stacks of both, and the lexer gets ahead; it is the step of the pure machine |
| `ConfLexer.Lexer.LexMapEnd` | conf/lex.go:877-881 | the in-place state function makes a safe step: at most one item is sent and the stacks of the parser can take it, the next state fits the stacks of both, and the lexer gets ahead; it is the step of the pure machine |
| `ConfLexer.Lexer.LexCommentStart` | conf/lex.go:1222-1228 | the in-place state function makes a safe step: at most one item is sent and the stacks of the parser can take it, the next state fits the stacks of both, and the lexer gets ahead; it is the step of the pure machine |
| `ConfLexer.Lexer.LexComment` | conf/lex.go:1231-1239 | the in-place state function makes a safe step: at most one item is sent and the stacks of the parser can take it, the next state fits the stacks of both, and the lexer gets ahead; it is the step of the pure machine |
| `ConfLexer.Lexer.Next` | conf/lex.go:196-213 | reads a character, or the end of input |
| `ConfLexer.Lexer.Pop` | conf/lex.go:147-155 | has a non-empty stack as its precondition, which every caller meets |
| `ConfLexer.Lexer.RunState` | conf/lex.go:120-129 | whatever state function is dispatched to makes a safe step |
| `ConfLexer.Lexer.Step` | conf/lex.go:120-129 | so does every step of the object, dropping what is to be skipped or running the state |
| `ConfLexer.Lexer.Tick` | conf/lex.go:120-129 | one step, recorded: what was sent so far is what the pure machine sends in as many steps |
| `ConfLexer.Lexer.NextItem` | conf/lex.go:120-129 | ends for every input; the item is one the stacks of the parser can take after those before it, and the lexer stops exactly after an end or an error |
| `ConfItems.TakePrefix` | conf/parse.go:228-256 | every prefix of a stream that the stacks can take can be taken: ends match what they close, a key comes only where one is due in a map, and a value only right after its key or in an array |
| `ConfLex.RunOnce` | conf/lex.go:120-129 | all runs of the lexer to its end agree, and what was sent before is a prefix of what was sent by the end |
| `ConfParse.ApplyFollows` | conf/parse.go:272-435 | an item the stacks can take never makes the parser panic and moves its stacks as the discipline says |
| `ConfParse.RunNeverPanics` | conf/parse.go:202-256 | over any stream the stacks can take, no context and no key is popped from an empty stack, whatever the items hold |
| `ConfParse.RunAppend` | conf/parse.go:202-222 | processing a stream is processing its parts in turn |
| `ConfTree.TreeRuns` | conf/parse.go:272-435 | from any machine that can store a value, the items of a tree store exactly what the tree means, or end in an error |
| `ConfTree.Configuration` | conf/parse.go:202-222 | a configuration whose tree has a meaning ends with it and no key left; a bad item ends in an error; a key left without a value ends in an error or with that key left |
| `ConfTree.TidyMeaning` | conf/parse.go:301-347 | a tree is free of values that vanish if and only if no key is left without a value in it |
| `ConfTree.LeftoverExactly` | conf/parse.go:202-222 | for the items of a tree: when the parser accepts, the key stack is empty, and the result is the meaning of the tree, if and only if every key has a value that is stored; `LeftoverStream` is about all streams |
| `ConfTree.LeftoverKey` | conf/parse.go:301-347 | an accepted item stream whose map ends under the wrong key, because an integer with an unknown suffix stores nothing; `ParseLeftover` is the text |
| `ConfLeftover.RunBalanced` | conf/parse.go:202-256 | for every stream that the stacks can take and that goes through: the keys left are one for each open context in a map, one whose value is due, and one for each key followed by something that stores nothing |
| `ConfLeftover.LeftoverStream` | conf/parse.go:202-256 | for every such stream, with comments, includes and braces: no key is left if and only if all contexts were closed and every key is directly followed by a value that is stored |
| `ConfLeftover.ParseText` | conf/parse.go:202-222 | for every text that is accepted, no key is left exactly under that condition on the items it is read as |
| `ConfParser.Parser.PopContext` | conf/parse.go:233-242 | has two contexts as its precondition, which every caller meets |
| `ConfParser.Parser.PopKey` | conf/parse.go:248-256 | has a key as its precondition, which every caller meets |
| `ConfParser.Parser.PopItemKey` | conf/parse.go:262-270 | has an item as its precondition, which every caller meets, in pedantic mode too |
| `ConfParser.Parser.NoteKey` | conf/parse.go:283-292 | puts the key, and in pedantic mode its item, on their stacks, which stay paired |
| `ConfParser.Parser.SetValue` | conf/parse.go:486-514 | stores a value in the innermost context, with no panic; the key and item stacks stay paired |
| `ConfParser.Parser.LookupVariable` | conf/parse.go:448-484 | finds the innermost binding, else what the environment says |
| `ConfParser.Parser.ReadInteger` | conf/parse.go:301-347 | the suffix table over the wrapped 64-bit value |
| `ConfParser.Parser.IncludeEntries` | conf/parse.go:408-435 | stores the entries of an included file in any order to the same effect |
| `ConfParser.Parser.ProcessItem` | conf/parse.go:272-435 | one item does to the stacks what the machine does, and an error is the machine's; what the items of written values come to, apart from the machine, is `ConfValues.Means` |
| `ConfParser.Parser.Advance` | conf/parse.go:202-222 | one item from the lexer is always one the stacks can take |
| `ConfParser.Parser.ReadItems` | conf/parse.go:202-222 | for every input the loop ends, at the end of the input or at the first item that is refused; what was taken is what the lexer sent, and only the last item ends the input |
| `ConfParser.Parser.Parse` | conf/parse.go:202-222 | for every input, pedantic or not: ends, never panics, also not for want of a key item, and accepts exactly when the items sent go through to the end of input with no key last but a closing brace; the result is what the machine makes of them |
| `ConfPrint.ValueLexes` | conf/lex.go:623-1247 | a written value is read as exactly the items of its tree, at any depth and under any stack |
| `ConfPrint.ConfigurationLexes` | conf/lex.go:257-1247 | the text of a configuration is read as exactly the items of its tree, and then the end |
| `ConfEscapes.EscapedLexes` | conf/lex.go:928-949 | for every string between double quotes in which characters stand for themselves or are escaped, by a letter or by two hexadecimal digits of either case: it is sent as exactly the characters meant |
| `ConfEscapes.GlyphReads` | conf/lex.go:1021-1060 | so is each character, wherever it stands |
| `ConfNumbers.NumberExactly` | conf/lex.go:1079-1103 | for all digits followed by a character that is no digit, hyphen, point or size letter, and whatever comes later: they are sent as an integer if and only if that character ends a number |
| `ConfNumbers.StringTakes` | conf/lex.go:1079-1103 | otherwise what is sent is the string of the digits, that character and all up to the end of the bare string |
| `ConfNumbers.BracketSwallowed` | conf/lex.go:1079-1103 | so the bracket right after any digits in an array is taken into a string and the array stays open |
| `ConfNumbers.SizeExactly` | conf/lex.go:1106-1120 | digits with a size suffix are sent as an integer if and only if a character that ends a number comes after it |
| `ConfNumbers.NegativeLexes` | conf/lex.go:1165-1178 | after a hyphen, digits are sent as an integer whatever comes after them, a closing bracket too, but for more digits, a point and a size letter |
| `ConfBlocks.BlockExactly` | conf/lex.go:986-1017 | for every text: a block in parentheses is sent up to the first closing parenthesis on a line by itself; the parenthesis is left out if and only if something comes after it |
| `ConfRoundTrip.NumberBack` | conf/parse.go:301-347 | a written integer is read as itself if and only if it fits 64 bits, and is an error otherwise |
| `ConfRoundTrip.ParseWritten` | conf/parse.go:202-222 | lexing and parsing the text of any printable configuration, sizes with any suffix among them, accepts it with no key left if and only if it has a meaning, and then gives exactly that meaning; it is not accepted if something in it is bad, and the result is always what its items lead to |
| `ConfValues.SizeBack` | conf/parse.go:301-347 | every number with the i-th of the letters k, m, g, t, p and e after it is read as the 64-bit wrap of its product with the i-th power of 1000, and with b, i or ib after that, in any case, of 1024; it is an error if and only if the number alone does not fit |
| `ConfValues.MultiplierIs` | conf/parse.go:318-347 | the table of suffixes, as powers |
| `ConfValues.TruthBack` | conf/parse.go:360-364 | each of six words, in any case, is read as the truth value it stands for |
| `ConfValues.Means` | conf/parse.go:270-375 | a tree of written values means what was written, at any depth, and is bad if and only if a number in it does not fit 64 bits |
| `ConfValues.ParseValues` | conf/parse.go:202-222 | lexing and parsing the text of written values gives back exactly these values: strings, numbers, sizes with any unit, truth values in any of six words and any case, lists and tables at any depth, the last of two equal keys; accepted if and only if every number fits |
| `ConfRoundTrip.ParseLeftover` | conf/parse.go:301-347 | a text of two lines that is accepted, whose map ends under the wrong key, with a key left |
| `Calendar.DateOfFields` | server/cron.go:100-147 | taking a time apart into fields and putting them together is the identity |
| `Calendar.FieldsOfDate` | server/cron.go:100-147 | and so is the other way round, for every civil date |
| `Calendar.YearStartClosedForm` | server/cron.go:89-149 | the month-by-month calendar agrees with the leap-day count for every year |
| `Calendar.WeekdayOfDate` | server/cron.go:318-322 | the weekday of every civil date, by a congruence on its year, month and day |
| `CronSearch.FieldTests` | server/cron.go:89-149 | the tests on the fields of a time are the tests on its month, day, hour and minute as units |
| `CronSearch.MoveMonth` | server/cron.go:104-112 | a month step skips no firing time, and leaves the finer fields minimal |
| `CronSearch.MoveDay` | server/cron.go:113-121 | so does a day step, which meets day 1 exactly when the month is over |
| `CronSearch.MoveHour` | server/cron.go:122-130 | so does an hour step |
| `CronSearch.MoveMinute` | server/cron.go:131-139 | so does a minute step |
| `CronSearch.SeekMonth` | server/cron.go:104-112 | the loop ends in a matching month of the same year or wraps to a later time; nothing skipped fires |
| `CronSearch.SeekDay` | server/cron.go:113-121 | the same for days of the month |
| `CronSearch.SeekHour` | server/cron.go:122-130 | the same for hours of the day |
| `CronSearch.SeekMinute` | server/cron.go:131-139 | the same for minutes of the hour |
| `CronSearch.SeekSecond` | server/cron.go:140-148 | the same for seconds of the minute |
| `CronSearch.NextFire` | server/cron.go:89-149 | ends; returns a firing second later than the time given with no firing second between, or reports that none fires to the end of the fifth year on; which seconds fire, by civil date, is `CronMeaning.FiresExactly` |
| `CronField.GetBits` | server/cron.go:259-272 | the shifts and the loop both give exactly the bits reached from the least by steps, up to the greatest |
| `CronField.GetField` | server/cron.go:155-166 | the loop gives the union of the ranges, or an error when one of them has one |
| `CronField.RangeBounded` | server/cron.go:170-234 | no range, however written, sets a bit outside the bounds but the top one |
| `CronField.RangeSets` | server/cron.go:170-234 | an accepted range always sets a bit |
| `CronField.FieldBounded` | server/cron.go:155-166 | nor does a field |
| `CronText.ReachedExactly` | server/cron.go:259-272 | the values from a first one by steps to a last one are those at a distance that the step divides |
| `CronText.NumeralBack` | server/cron.go:237-256 | a written number is read back when it fits, and is an error otherwise |
| `CronText.RangeBack` | server/cron.go:170-234 | reading a written range, with numbers or names in any case at its ends, gives exactly its values, or an error if and only if the range is not valid |
| `CronText.FieldBack` | server/cron.go:155-166 | reading a written field gives exactly the union of its ranges, or an error if and only if one is not valid |
| `CronField.EmptyExactly` | server/cron.go:155-166 | for every text and bounds: a field is accepted and matches nothing if and only if it has only commas |
| `Cron.ParseCron` | server/cron.go:49-150 | an error exactly for malformed patterns; otherwise as `NextFire`. `CronMeaning.NextTime` says it of what was written |
| `CronMeaning.NamesDenote` | server/cron.go:286-308 | each month name, in any case, is the number of its month from one, each day name that of its day from Sunday as zero, and no other word is a name |
| `CronMeaning.Accepted` | server/cron.go:49-87 | a pattern of six written fields is accepted if and only if all their ranges are valid |
| `CronMeaning.FiresExactly` | server/cron.go:89-149 | it fires at a civil date and time if and only if its month list has the month, its hour, minute and second lists have the time, and the day of the month and the weekday of that date are both in their lists where one of these has a star, and otherwise one of them is |
| `CronMeaning.NextTime` | server/cron.go:49-150 | the next time of a written pattern: an error exactly if a range is not valid; otherwise the first later second whose civil date and time are in its lists, or none to the end of the fifth year on |
| `Outbound.RunStream` | server/client.go:1632-1853 | for every interleaving of queueing with flushes and all partial writes, while the connection is open: bytes written, then those being written, then those queued are exactly what was queued, in order; with no flush running the pending count is the bytes held |
| `Outbound.RunPending` | server/client.go:2468-2533 | the pending count is right in every run, up to the writes of a running flush |
| `Outbound.RunLimited` | server/client.go:2506-2524 | in every run an open connection with a limit has no more pending than that, and one without a limit is not closed for it |
| `Outbound.ClosesExactly` | server/client.go:2506-2524 | after every run queueing closes an open connection if and only if it has a limit and what was queued, with the new data, exceeds by more than that what ended flushes have written |
| `Outbound.FlushSendsAll` | server/client.go:1632-1800 | from every open state between flushes with something pending: a flush whose writes are accepted in full has sent everything ever queued, in order, and leaves nothing pending |
| `Outbound.RunApart` | server/client.go:396-428 | in every run no frame backs two buffers, no pool holds a frame that still backs one, and neither a buffer nor what a pool holds is larger than its frame, though a buffer that a partial write cut goes to the pool of what is left of it, or to none |
| `Outbound.ReturnedFits` | server/client.go:410-428 | returning buffers puts exactly the frames of those whose capacity is that of a pool into the pools, with no more room than they had |
| `Outbound.StepStream` | server/client.go:1632-1853 | every step keeps the byte stream |
| `Outbound.QueueFlat` | server/client.go:2468-2533 | topping up the last buffer and cutting the rest into pooled buffers appends exactly the data |
| `Outbound.WriteFlat` | server/client.go:1741-1764 | a partial write takes exactly its bytes off the front |
| `Outbound.WriteWithin` | server/client.go:1741-1764 | what is left after a write lies within the frames it had, a cut buffer with the room that is left |
| `ConnectionObject.Connection.TakeFrame` | server/client.go:396-405 | a frame from the pool of the size asked for, or a new one |
| `ConnectionObject.Connection.QueueOutbound` | server/client.go:2468-2533 | a step of the model, which it was free to take; keeps frames apart |
| `ConnectionObject.Connection.BufferRest` | server/client.go:2496-2504 | the loop cuts the data into buffers on distinct frames of their sizes |
| `ConnectionObject.Connection.BeginFlush` | server/client.go:1632-1694 | takes the queued buffers over, once |
| `ConnectionObject.Connection.AppendCollected` | server/client.go:1723-1733 | appends them behind what an earlier flush left |
| `ConnectionObject.Connection.WriteBatches` | server/client.go:1738-1764 | whatever the socket takes of each batch: what went out and what is left are what there was |
| `ConnectionObject.Connection.EndFlush` | server/client.go:1768-1838 | returns the frames of used-up buffers to the pools of their capacities and settles the count |
| `FanOut.TargetsExact` | server/client.go:5046-5079 | there is one target for each connection named, with exactly the queue names of its subscriptions in order |
| `FanOut.OneCopyEach` | server/client.go:5565-5616 | for any matches: a route or leaf connection is sent at most one copy, with exactly the queue names assigned to it, and only if a subscription there is to be served |
| `FanOut.OnePerGroup` | server/client.go:5315-5529 | for any matches: a queue group takes at most one delivery, accepted here or sent elsewhere, never both, and to one of its members |
| `FanOut.SomeoneHere` | server/client.go:5315-5529 | something was accepted in the groups exactly when a member here was chosen |
| `FanOut.LinearCutsOff` | server/client.go:5184-5616 | a linear message that a plain subscriber here accepts is delivered exactly once in all; one that only members of groups here accept is sent to no other connection |
| `FanOutRules.CopyExactly` | server/client.go:5184-5210 | by the kinds of the connections: one gets a copy if and only if the message was not cut off as linear, does not come from its leaf cluster, and a queue group settled on it or it has a plain match and hears of it: a route of everything but what comes from a route or a spoke, unless that is asked for; a leaf connection of everything but its own message and, unless it is a hub or the message a service reply, what comes from a route |
| `FanOutRules.RouteToRoute` | server/client.go:5188-5191 | a message from a route goes on to another only if that is asked for, or a queue group settled on it |
| `FanOutRules.ClientToRoutes` | server/client.go:5188-5191 | every route with a plain match gets a copy of a message of a client that is not cut off |
| `FanOutRules.NoEcho` | server/client.go:5196-5206 | a leaf connection is never sent its own message, unless its cluster has no name and a queue group settled on it |
| `FanOutRules.RouteToLeaf` | server/client.go:5196-5206 | a message from a route reaches a leaf connection only if that is a hub, the message is a service reply, or a queue group settled on it |
| `FanOutRules.QueuesCross` | server/client.go:5333-5372 | each of these exceptions happens, for any such connections |
| `FanOutRules.SettlesOnServer` | server/client.go:5340-5427 | a queue group settles only on a member elsewhere that may serve the message, by kinds: none of its own leaf cluster, none across a route from a spoke, none that stands for the leaf cluster it comes from |
| `FanOutRules.TriedExactly` | server/client.go:5210-5284 | every plain subscription of a client or internal connection, but an import where a service brought the message, is tried once for each time it is listed, and nothing else is; a linear message stops at the first acceptance |
| `FanOutRules.GroupsOffered` | server/client.go:5307-5313 | the message of a client is offered to every queue group; one from another server without queue names to none, unless that is to be ignored |
| `FanOutRules.AskedOnly` | server/client.go:5315-5331 | a group that the filter does not name gets nothing; another goes without only if no member elsewhere may serve the message and every member here, but imports where a service brought it, was tried |
| `FanOut.Fan.AddSubToRouteTargets` | server/client.go:5046-5079 | the targets are always those of the subscriptions added so far |
| `FanOut.Fan.PlainSubs` | server/client.go:5184-5284 | each plain subscriber here is tried in turn up to the first acceptance of a linear message; the others become targets. `CopyExactly` and `TriedExactly` say which by kinds |
| `FanOut.Fan.Audience` | server/client.go:5186-5210 | which plain subscriptions become targets, and which are tried here |
| `FanOut.Fan.PassesFilter` | server/client.go:5320-5331 | the loop finds out whether the filter has the name of a group |
| `FanOut.Fan.NoQueues` | server/client.go:5307-5313 | when queue groups are left out |
| `FanOut.Fan.SplitRouted` | server/client.go:5340-5370 | for a message from a route: the members here, and a stand-in elsewhere that is on a leaf node if one can be |
| `FanOut.Fan.TryMembers` | server/client.go:5371-5513 | from a random member on, ends with one that accepted here, one on another server that is not on or for a leaf node, a stand-in only after every member here was tried and refused and if there is none of the former, or none |
| `FanOut.Fan.SelectQueueSub` | server/client.go:5315-5529 | the choice of at most one member of a group |
| `FanOut.Fan.QueueSubs` | server/client.go:5315-5529 | one choice for each group that passes the filter |
| `FanOut.Fan.SendToRemotes` | server/client.go:5565-5616 | one copy for each target that is not the sender |
| `FanOut.Fan.QueuesAndRemotes` | server/client.go:5286-5616 | the queue groups and the other servers, after the plain subscribers |
| `FanOut.Fan.ProcessMsgResults` | server/client.go:5083-5616 | everything that is tried and sent for a message, in order, as the rules in `FanOutRules` are about |
| `HeapOrder.StepUp` | server/dirstore.go:587-599 | a sift-up step repairs the order but for one entry |
| `HeapOrder.StepDown` | server/dirstore.go:587-599 | so does a sift-down step to the least child |
| `HeapOrder.LeastFirst` | server/dirstore.go:701-713 | the first entry of an ordered heap is the least |
| `Digest.XorAssign` | server/dirstore.go:549-553 | the loop over the bytes is the exclusive or |
| `JwtIndex.XorOrder` | server/dirstore.go:549-553 | the digest of a set of keys does not depend on their order |
| `JwtIndex.DigestOfContents` | server/dirstore.go:549-553 | equal contents have equal digests, whatever the histories |
| `JwtIndex.TrackSound` | server/dirstore.go:643-670 | tracking keeps index, order of use and digest in agreement, whether the key is new or not |
| `JwtIndex.UntrackSound` | server/dirstore.go:635-641 | so does untracking |
| `JwtIndex.TouchSound` | server/dirstore.go:621-633 | so does a use |
| `JwtIndex.ExpireSound` | server/dirstore.go:701-713 | so does expiry, which changes nothing when nothing is due |
| `JwtIndex.ExpireOne` | server/dirstore.go:701-713 | taking out what is due one by one, in any order, leads to the same |
| `JwtIndex.WriteSound` | server/dirstore.go:412-447 | so does a write |
| `JwtIndex.Run` | server/dirstore.go:395-447 | after any history of loads, saves, deletions and expiry all parts agree |
| `JwtIndex.RunByUse` | server/dirstore.go:621-633 | after any history of an evicting store the keys are kept in the order of their last use |
| `JwtIndex.EvictsLeastUsed` | server/dirstore.go:412-447 | after any history, a new key written to a full evicting store removes exactly the key used longest ago |
| `JwtIndex.UsedFallsDue` | server/dirstore.go:621-670 | with the longest time to live, an entry falls due if and only if it was merely used: the sum wraps around |
| `JwtExpiry.ExpiresExactly` | server/dirstore.go:643-661 | after every history, expiry at a time removes exactly the tokens whose time to live since their last use has passed, or without one those whose claim has, as long as these times have 64 bits |
| `JwtExpiry.RunWithin` | server/dirstore.go:412-447 | after every history the store holds no more tokens than its limit |
| `JwtExpiry.RunDated` | server/dirstore.go:621-661 | after every history each entry holds the token last saved under its key and the expiry time of its last use or its claim |
| `JwtTracker.Tracker.Swap` | server/dirstore.go:594-599 | exchanges two entries and their recorded positions |
| `JwtTracker.Tracker.Up` | server/dirstore.go:587-599 | restores the order upwards without losing an entry |
| `JwtTracker.Tracker.Down` | server/dirstore.go:587-599 | restores the order downwards and says whether it moved |
| `JwtTracker.Tracker.Remove` | server/dirstore.go:609-641 | takes out exactly the entry at a position; order and positions stay right |
| `JwtTracker.Tracker.Push` | server/dirstore.go:601-607 | adds an entry; order and positions stay right |
| `JwtTracker.Tracker.UpdateTrack` | server/dirstore.go:621-633 | a use, with heap, index and order of use in agreement |
| `JwtTracker.Tracker.UnTrack` | server/dirstore.go:635-641 | removal, likewise |
| `JwtTracker.Tracker.TrackKey` | server/dirstore.go:643-670 | tracking, likewise |
| `JwtTracker.Tracker.ExpireDue` | server/dirstore.go:701-713 | popping from the heap while the first is due removes exactly everything due |
| `JwtTracker.Tracker.LoadKey` | server/dirstore.go:395-410 | a load counts as a use |
| `JwtTracker.Tracker.WriteKey` | server/dirstore.go:412-447 | a write, an eviction or a refusal as specified; a refusal changes nothing |
| `JwtMerge.SaveAllNewest` | server/dirstore.go:506-547 | after any deliveries to files, in any order and however repeated, each key has its newest token |
| `JwtMerge.Converge` | server/dirstore.go:318-337 | two sets of files that have seen the same tokens are the same |
| `JwtMerge.GivesWay` | server/dirstore.go:506-547 | a token that can be read gives way if and only if the arriving one can be read, has another id, is not older, and both are for the key |
| `JwtMerge.SavesFollow` | server/dirstore.go:506-547 | whatever is delivered, in any order, no token for another subject, none that cannot be read and no older one ever takes the place of one that can be read |
| `JwtStore.StepFollows` | server/dirstore.go:395-547 | every load, save, deletion, expiry and eviction keeps an entry with the hash of its token for each file and no other, with heap, order of use and digest sound |
| `JwtStore.Run` | server/dirstore.go:395-547 | so does every history from an empty store |
| `JwtStore.DigestOfFiles` | server/dirstore.go:556-566 | two stores, with any limits and any histories, that hold the same files have the same digest |
| `JwtStore.WriteExactly` | server/dirstore.go:412-447 | a write succeeds if and only if the token is not empty and its key is there, there is room, or the store evicts; the key then has a token of its hash, nothing else changes, and nothing goes unless a new key takes the last place |
| `JwtStore.DeletesOnly` | server/dirstore.go:449-473 | after every history a deleted key is gone and every other file as it was, and a load changes no file |
| `JwtStore.SaveEachNewest` | server/dirstore.go:506-547 | a store with room for the keys delivered ends with the newest token of each, whatever the order and the times |
| `JwtStore.SameDigest` | server/dirstore.go:506-566 | two stores with room that are delivered the same tokens, in any order, however often and at any times, end with the same files and the same digest |
| `JwtStore.LineBack` | server/dirstore.go:318-337 | a line made from a key and token is read back as them |
| `JwtStore.PackageBack` | server/dirstore.go:318-337 | merging a package does to files, index and digest what its tokens do one after the other |
| `JwtStore.DirStore.Write` | server/dirstore.go:412-447 | writes a file and its entry, or neither; what is evicted loses its file too |
| `JwtStore.DirStore.SaveIfNewer` | server/dirstore.go:506-547 | saves a token exactly when it is newer or the first, and fails without a change |
| `JwtStore.DirStore.Merge` | server/dirstore.go:318-337 | saves the lines of a package in turn, up to the first that fails |
| `JwtStore.DirStore.Load` | server/dirstore.go:395-410 | returns the token of a key and counts as a use |
| `JwtStore.DirStore.Delete` | server/dirstore.go:449-476 | removes the file and its entry |
| `JwtStore.DirStore.Expire` | server/dirstore.go:694-713 | removes exactly the files and entries that are due |
| `WeightedMapping.DrawsExact` | server/accounts.go:894-919 | exactly as many of the hundred draws select an entry of the running sums as its own weight |
| `WeightedMapping.DrawsFair` | server/accounts.go:697-787 | for every order of sorting, exactly as many of the hundred draws lead to a subject as the filled-up list gives it |
| `WeightedMapping.FairExactly` | server/accounts.go:697-787 | for every accepted mapping: a listed destination gets exactly the draws its weight says if and only if it is not what the source is filled in as, or the source is listed as it stands, or the weights reach a hundred; without a partial wildcard in the source it always does |
| `WeightedMapping.SourceGetsRest` | server/accounts.go:747-765 | the source, as a destination, gets what is missing of a hundred beside what it is given |
| `WeightedMapping.SourceGetsAll` | server/accounts.go:747-765 | a source with a wildcard that is listed as a destination with weight 30 gets all hundred draws |
| `WeightedMapping.NoneDropped` | server/accounts.go:894-919 | a draw selects something if and only if it is below the total |
| `WeightedMapping.DropsExactly` | server/accounts.go:742-773 | a draw is dropped if and only if the source was listed as it stands and the draw is not below the total |
| `WeightedMapping.LossExactly` | server/accounts.go:742-773 | draws are lost if and only if the source is listed as it stands and the weights do not reach a hundred; listing it as it is written for a destination loses none |
| `WeightedMapping.TotalOrder` | server/accounts.go:766-773 | the total does not depend on the order |
| `WeightedMapping.SortByWeight` | server/accounts.go:766-766 | a permutation in ascending order of weight |
| `WeightedMapping.Accumulate` | server/accounts.go:768-773 | the byte sums never overflow and are the running totals |
| `WeightedMapping.SumWeights` | server/accounts.go:743-746 | the byte sum never overflows and is the total |
| `WeightedMapping.ProcessDestinations` | server/accounts.go:742-774 | the list kept is the running sums of some order of the listed destinations, filled up to a hundred with the tokenized source unless the source was listed; refused exactly when it must be filled and may not be |
| `WeightedMapping.ReadDestinations` | server/accounts.go:705-740 | refuses exactly the unacceptable lists, and sorts destinations by cluster |
| `WeightedMapping.AddWeightedMappings` | server/accounts.go:697-787 | accepts exactly the lists with valid distinct subjects, weights of at most a hundred, totals per cluster of at most a hundred, and a source that can be filled in where it has to be; each list kept is then as it should be |
| `WeightedMapping.ProcessLists` | server/accounts.go:776-787 | the main list and those of the clusters, each filled up where needed, or refused exactly when one cannot be |
| `WeightedMapping.SelectMapped` | server/accounts.go:898-919 | the scan and its single-entry shortcut agree for every draw |
| `SubjectTokens.TokenizeSame` | server/subject_transform.go:378-391 | a subject is its own destination if and only if it has no partial wildcard |
| `SubjectTokens.TransformTokenize` | server/subject_transform.go:378-391 | the loop numbers the partial wildcards from one |
| `Template.RankOrder` | server/auth.go:430-459 | ranks follow the lexicographic order, and no two combinations share one |
| `Template.AdvanceRank` | server/auth.go:450-456 | advancing the digits goes to the next rank, or from the last back to the first |
| `Template.Digits` | server/auth.go:430-459 | every rank below the product has digits within the sizes |
| `Template.Turn` | server/auth.go:450-456 | the in-place loop with its carry advances the digits |
| `Template.CountCombinations` | server/auth.go:431-437 | the product of the sizes |
| `Template.ReadOff` | server/auth.go:447-449 | the combination the digits stand at |
| `Template.CartesianProduct` | server/auth.go:430-459 | as many combinations as the product says, the k-th being that of the digits of k |
| `Template.OnceInOrder` | server/auth.go:430-459 | every combination is there exactly once, in lexicographic order |
| `Template.Expansions` | server/auth.go:549-564 | the divisions keep the running product within the limit, and accept if and only if the combinations fit beside what is there and the lists before the first empty one do not pass the limit by themselves |
| `Template.NoEmptyList` | server/auth.go:549-564 | without empty lists that is exactly when everything fits; `ValuesFor` and `CollectValues` show that there are none |
| `Template.ValuesFor` | server/auth.go:493-537 | a template that stands for values stands for at least one |
| `Template.TagsExactly` | server/auth.go:507-529 | a tag template stands for exactly what comes after its name, in lower case, and a colon in the tags of the user or the account; it is an error, or a blank, where there is none |
| `Template.CollectValues` | server/auth.go:493-537 | an error exactly when a template has no values |
| `Template.ExpandTemplate` | server/auth.go:493-563 | refused exactly when a template has no values, or one is a tag and the combinations do not fit beside what is there; otherwise at least one combination, each once, in order |

## Left out

- ConsumerAccounts.ReachableSane: clustering, consumer reset and recovery, configuration changes, undelivered push messages and replay delays are not steps of a run; gathering and delivering a message is one step.
- ConsumerRuns.ReachableGood: purges that drop a pending message above one that stays are not steps of these runs, since the floors are not kept by them, as `PurgeExactly` and `GivesUpExactly` say.
- ConsumerTurns.TurnLosesNone: where an acknowledgement settles everything up to it, says nothing of what the stream no longer holds, which `ConsumerTurns.HeadStuck` does.
- ConsumerState.FirstLive: the skip list for the last message per subject is not modelled; the stream is the set of its live matching sequences.
- ConsumerSafety.CheckPendingKeeps: the pass does not stop early when it has run for long, and times are a set of due entries.
- ConsumerObject.Consumer.ProcessAckMsg: acknowledgements ahead of the cursor under flow control are not modelled.
- ConsumerObject.Consumer.NeedAckFor: whether a message matches the filter is decided before, and a lost stream is not modelled.
- WaitQueueList.WaitQueue: a missing queue is not modelled; the expiry of requests and pinned clients are left out.
- FlowControl.NeverWedges: the limit is at least one, as it is set.
- AckReply.RoundTripV2: the account hash has no dot and no percent sign, as the hash function of the source ensures.
- ConfLexer.Lexer: line numbers and positions of items are not modelled, and neither are the texts of errors.
- ConfParser.Parser.Parse: the positions that the pedantic mode keeps beside values are not modelled; its stack of key items is.
- ConfParser.Parser.ReadScalar: floats, dates, environment variables and included files are read by parameters, since libraries and files do it.
- ConfRoundTrip.ParseWritten: covers strings without quotes, decimal integers, sizes, booleans, arrays and maps at any depth, one entry a line; floats, dates, includes and variables have no written form here, and blocks and escapes only by themselves.
- Calendar: time zones other than UTC are not modelled.
- Outbound.RunStream: compression, websocket framing, write timeouts and stalled producers are left out.
- FanOut.Fan.ProcessMsgResults: gateways, service and stream imports, message tracing and header changes are left out; whether a delivery is accepted is a parameter.
- JwtExpiry.ExpiresExactly: stores whose entries live for ever are not covered, since `JwtIndex.UsedFallsDue` says what becomes of them.
- JwtStore.Run: failures to read or write files, shards, renaming on deletion and reloading the directory are not modelled.
- JwtTracker.Tracker: entries are named by their keys instead of by pointers; the library's heap and linked list are written out.
- JwtMerge.SaveAllNewest: decoding a token is a parameter; two tokens of a key that are delivered do not have the same issue time.
- JwtStore.SameDigest: different tokens are taken to have different hashes, since a store takes a token with the hash it has for the same one; and the stores have room for the keys delivered, as one that evicts or refuses need not hold what the other does.
- WeightedMapping.SortByWeight: an insertion sort stands for the library's sort; only a sorted permutation is relied on.
- WeightedMapping.AddWeightedMappings: a subject transform is identified with its destination, whether one can be made is a parameter, and replacing an earlier mapping for the same source is left out.
- Template.ExpandTemplate: which operation a template names is a parameter, and building and validating the subjects from the combinations is left out.
- Account limits, latency tracking, authentication, monitoring, logging, storage, Raft and the route, leaf and gateway protocols are not part of this model.
