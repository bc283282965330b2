# Verified models of the TorchCraft training library and bot

A Dafny model of the parts of the repository that keep several pieces of state in
step: protocols of the training library (`cpid/`), the bookkeeping of the bot
(`src/`) and two shared utilities (`common/`). Each module models one of them and
proves what it is for, over every input or every run.

| module | models | main results |
|---|---|---|
| `ReqRep`, `Pipeline`, `Delivery` | the request client, the buffered consumer and producer | at-least-once delivery over a network that loses, repeats and reorders, and no message waits in vain; conservation, capacity, bounded retries |
| `PriorityMutex` | `priority_mutex` | one owner, exact counters, priority order, no lost wakeup; every call of lock can return |
| `SyncTrainer`, `FrameUse`, `A2C` | the frame buffers and the return | returns never mix games; no fault is reachable; how often a frame is used, exactly |
| `Batch`, `AddedKey`, `Batcher` | `SubBatchAsyncBatcher` and `AsyncBatcher` | batching is transparent, also to models that read several keys; the exact round trip; no call waits in vain |
| `Blackboard`, `BoardEvents` | blackboard tasks, unit ownership, controllers | who has a unit after every update; when ownership is exact and disjoint, exactly |
| `DataReader` | `DataReaderIterator` | the readable data in order, each once; no lost notification; exactly when it can deadlock |
| `ESTrainer` | on-policy admission of games | conservation of games; the one reachable abort, exactly |
| `HeartBeat` | boot and heartbeat over Redis | a dead worker writes nothing, exactly; one boot for each boot key |
| `Glob` | the glob matcher | equality with a declarative meaning, and its one exception |
| `AreaCache` | the area cache | a nearest area for every tile |
| `UnitContainers`, `UnitRecords` | unit groups with back indices | what every frame makes of a unit; every group equals its definition after every update, but one, and that one exactly when |
| `Options` | | the option type that the others share |

## How the models are built

A protocol is a total function `Apply` (in `Pipeline`, `Advance`) from a state and
an event to the next state; an event that cannot happen changes nothing, so a run
is any sequence of events, and a theorem about `Run` holds for every interleaving.
A section that the source runs under one mutex is one event; where it unlocks, it
is two. Randomness, time, the network and the game are event parameters: which
requests time out, which message arrives, which units are shown.

State that the source changes in place is a class whose methods change fields and
loop as the source does. The `ensures` of a method ties its new state to the event
of the state machine, and its `Valid()` is the invariant of the reachable states.

The source aborts, throws or asserts in several places. Such a branch is a state of
the model (`fatal`, `fault`, `Crashed`), and a theorem says that it is unreachable
or exactly when it is reached.

## Where the code does not do what is expected

- `Glob.Gmatch`: the empty string does not match a pattern of stars.
- `ReqRep.CrashExactly`: a resend loop that starts without endpoints and with a request
  to send again ends in a failed assertion.
- `DataReader.DeadlockExactly`: a call of `next` that skips many unreadable data empties
  the queue without waking the readers, which then wait for the consumer while it
  waits for them. This can happen exactly if some batch cannot be filled from the
  queue it starts with.
- `ESTrainer.LeftOverExactly`: `forceStopEpisode` takes two locks one after the
  other, and an update that ends in between aborts.
- `HeartBeat.SilentExactly`: `boot` does not look at the dead key.
- `Batch.RoundTrip`, `Batcher.FatalExactly`: scalars come back as one row, empty
  dictionaries vanish, and a batch without any tensor aborts.
- `Blackboard.OwnershipAfterUpdate`: a finished task that stays on the board, because it
  was posted without auto-removal, takes its units back from newer tasks. Ownership is
  exact after an update exactly if no such task shares a unit with another one or with
  a newer task that claims it.
- `BoardEvents.StaleEntryStays`: a task that is marked for removal leaves the board and
  not its controller, which can then know a unit under the id of a cancelled task.
- `UnitContainers.MineRunExactly`: the group of powered units misses changes of power
  that come with no other change. It is right after every update of a run exactly if
  there is no such change.

## Model

| member | source | states |
|---|---|---|
| `ReqRep.Reachable` | cpid/reqrepserver.cpp:261-522 | in every run of the client, whatever is requested, answered, timed out or reconfigured: each requested item is in exactly one of the queue, the resend queue, in flight or settled; in-flight plus resend items stay within the limit; ids in flight are distinct; the number of attempts fits the place of the item |
| `ReqRep.ApplyBooks` | cpid/reqrepserver.cpp:386-477 | one step moves an item between the places or settles it, and never copies or loses one |
| `ReqRep.ApplyCapacity` | cpid/reqrepserver.cpp:405-477 | one step keeps in-flight plus resend items within maxConcurrentRequests |
| `ReqRep.ApplyIds` | cpid/reqrepserver.cpp:431-477 | ids in flight stay distinct, and each was issued for the item it carries |
| `ReqRep.ApplyAttempts` | cpid/reqrepserver.cpp:405-477 | a queued item was never sent, an item to be resent as often as its retry count, an item in flight once more than that |
| `ReqRep.CrashExactly` | cpid/reqrepserver.cpp:516-521 | from every reachable state in which the resend loop begins, and for every way through the loop, the assertion after it fails exactly if the loop began without endpoints and with something to resend |
| `ReqRep.WhileResending` | cpid/reqrepserver.cpp:431-477 | while the client resends, whatever is requested or reconfigured meanwhile, the endpoints in use stay, and without endpoints nothing leaves the resend queue |
| `ReqRep.NeverCrashes` | cpid/reqrepserver.cpp:479-522 | a client that never has an empty endpoint list never fails that assertion |
| `ReqRep.CrashHappens` | cpid/reqrepserver.cpp:483-519 | the failing run: the endpoints are taken away while a request is in flight, and the request times out |
| `ReqRep.SettledForGood` | cpid/reqrepserver.cpp:386-429 | a settled promise is never settled again |
| `ReqRep.ReplySettlesCurrent` | cpid/reqrepserver.cpp:386-402 | a promise gets a reply only from the message with the id under which it is in flight at that moment, and fails only after maxRetries + 1 attempts |
| `ReqRep.ReplySettles` | cpid/reqrepserver.cpp:386-402 | for every reachable client that listens: any reply, a denial as well, settles the promise in flight under its id and takes that request out of flight, and everything else stays |
| `ReqRep.StaleReplyIsIgnored` | cpid/reqrepserver.cpp:386-402 | a reply under any other id changes no queue, no request and no promise |
| `ReqRep.TimeoutExactly` | cpid/reqrepserver.cpp:405-429 | for every reachable client: a request that timed out is to be sent again with one more retry, or fails if it has had them all, and everything else stays |
| `ReqRep.SendsBounded` | cpid/reqrepserver.cpp:405-477 | no message is sent more than maxRetries + 1 times, each time under another id |
| `ReqRep.RequestClient.constructor` | cpid/reqrepserver.cpp:231-251 | a new client is the start of every run |
| `ReqRep.RequestClient.Request` | cpid/reqrepserver.cpp:261-266 | the item enters the queue under a new promise; everything else stays |
| `ReqRep.RequestClient.UpdateEndpoints` | cpid/reqrepserver.cpp:268-286 | true exactly if the wanted endpoints differ from the ones wanted before, which are then replaced and marked as changed |
| `ReqRep.RequestClient.PollHandleReply` | cpid/reqrepserver.cpp:386-402 | the reply, whatever it is, settles the request in flight under its id and takes it out of flight; an id that is not in flight changes nothing |
| `ReqRep.RequestClient.ExpireAt` | cpid/reqrepserver.cpp:411-425 | a timed-out request goes to the resend queue with one more retry, or fails for good |
| `ReqRep.RequestClient.RequeueExpired` | cpid/reqrepserver.cpp:405-429 | the loop that erases while it iterates expires exactly the requests whose time is over, and leaves none of them in flight |
| `ReqRep.RequestClient.SendOne` | cpid/reqrepserver.cpp:441-461 | the front item goes into flight under a fresh id |
| `ReqRep.RequestClient.SendRequests` | cpid/reqrepserver.cpp:431-477 | the loop stops only when the queue is empty, no endpoint is there or the limit is reached; an attempt that fails leaves the item in front, to be sent under another id |
| `ReqRep.RequestClient.Collect` | cpid/reqrepserver.cpp:516-517 | the first half of a round keeps the invariant, for any reply and any time-outs |
| `ReqRep.RequestClient.SendAgain` | cpid/reqrepserver.cpp:518-519 | with endpoints, the resend queue is empty where the source asserts it |
| `ReqRep.RequestClient.RunOnce` | cpid/reqrepserver.cpp:516-521 | after a round nothing is left to resend, and requests wait only because the limit is reached |
| `ReqRep.RequestClient.Drain` | cpid/reqrepserver.cpp:485-489 | the loop before a switch sends nothing and ends with nothing in flight, at the latest when all that is in flight has timed out |
| `ReqRep.RequestClient.DrainRound` | cpid/reqrepserver.cpp:487-488 | one pass of it: a reply settles its request, requests whose time is over leave, none enters |
| `ReqRep.RequestClient.SwitchEndpoints` | cpid/reqrepserver.cpp:485-513 | the wait, then the switch: nothing is in flight when the sockets change, and the endpoints are then the ones wanted last |
| `Pipeline.EveryRun` | cpid/zmqbufferedconsumer.h:73-134 | the system invariant over every run of consumer, client, network and producers, with lost, repeated, reordered and late messages |
| `Pipeline.AtLeastOnce` | cpid/zmqbufferedconsumer.h:86-134 | in every run, each message the consumer took is still pending or a producer has it in its queue or took it from there, under an id issued for that very message and with its contents |
| `Delivery.CanBeConfirmed` | cpid/zmqbufferedconsumer.h:86-134 | from every reachable state in which the client has endpoints and a producer has a queue, a run leads on in which a given pending message is confirmed and leaves the list |
| `Delivery.AckComes` | cpid/reqrepserver.cpp:479-522 | around the loop of the client an open promise comes to be settled with a confirmation, whatever else is queued or in flight |
| `Delivery.GoesOn` | cpid/reqrepserver.cpp:479-522 | a client with endpoints that is not listening for a reply has a step that brings it closer to a reply, and does not crash |
| `Delivery.AckArrives` | cpid/zmqbufferedproducer.h:112-147 | a request that was sent can be confirmed by any producer, once it works off its queue |
| `Delivery.TagsDiffer` | cpid/zmqbufferedconsumer.h:93-133 | in every run different entries of the pending list are for different messages |
| `Pipeline.OneItemEach` | cpid/zmqbufferedconsumer.h:93-133 | a pending message with an open promise has exactly one item at the client, one with a settled promise has none |
| `Pipeline.ClientIsBounded` | cpid/zmqbufferedconsumer.h:73-133 | all items at the client together are at most the pending messages, which are at most min(maxQueueSize, 64) |
| `Pipeline.ConfirmedKept` | cpid/reqrepserver.cpp:386-395 | a promise is settled with a confirmation only after its message was put in a producer queue |
| `Pipeline.AccountedKept` | cpid/zmqbufferedconsumer.h:93-133 | no step lets a message disappear between the pending list and the producer queues |
| `Pipeline.OwedKept` | cpid/zmqbufferedproducer.h:118-134 | a message whose confirmation is owed is in a producer queue, or was taken from it, in every interleaving |
| `Pipeline.OutstandingKept` | cpid/zmqbufferedconsumer.h:93-133 | every open promise is one that a pending message waits for |
| `Pipeline.MessagesKept` | cpid/reqrepserver.cpp:431-477 | every item and every request sent carries the contents of the message its promise is for |
| `Pipeline.Consumer.constructor` | cpid/zmqbufferedconsumer.h:67-74 | a new consumer is the start of every run |
| `Pipeline.Consumer.ReapAt` | cpid/zmqbufferedconsumer.h:94-128 | a settled entry leaves the pending list if it was confirmed, else it is requested again under a new promise, in place |
| `Pipeline.Consumer.ReapPending` | cpid/zmqbufferedconsumer.h:93-129 | one pass leaves no settled promise in the pending list, and consists of such steps only |
| `Pipeline.Consumer.Submit` | cpid/zmqbufferedconsumer.h:132-133 | the message enters the pending list together with its promise |
| `Pipeline.Producer.PlaceRequest` | cpid/zmqbufferedproducer.h:118-131 | refused with DENY exactly if the queue is full, else the message is queued and its confirmation is owed |
| `Pipeline.Producer.ConfirmRequest` | cpid/zmqbufferedproducer.h:133-134 | the ACK that is owed is sent after the mutex was released, whatever was taken from the queue since |
| `Pipeline.Producer.Produce` | cpid/zmqbufferedproducer.h:137-147 | messages leave in the order in which they were confirmed, none lost |
| `PriorityMutex.Reachable` | cpid/prioritymutex.h:60-99 | the invariant over every interleaving of any number of threads, spurious wakeups included |
| `PriorityMutex.MutualExclusion` | cpid/prioritymutex.h:60-89 | two owners are the same thread |
| `PriorityMutex.CountsAreExact` | cpid/prioritymutex.h:60-75 | queueCount[p] is the number of threads registered at priority p |
| `PriorityMutex.HighestGoesFirst` | cpid/prioritymutex.h:68-69 | a thread that checks passes exactly if no registered thread has a higher priority at that instant, and sleeps otherwise |
| `PriorityMutex.NoLostWakeup` | cpid/prioritymutex.h:69-89 | while a thread sleeps, some thread is awake: registered, owner, or about to notify |
| `PriorityMutex.LockCanBeTaken` | cpid/prioritymutex.h:60-89 | from every reachable state with a waiting thread, steps without spurious wakeups lead to an owner |
| `PriorityMutex.LockReturns` | cpid/prioritymutex.h:60-89 | no call of lock waits in vain: from every reachable state the threads that are in a call can go on, without a spurious wakeup, until the caller owns the lock |
| `PriorityMutex.LockPassesOn` | cpid/prioritymutex.h:60-89 | a registered thread gets the lock from whoever owns it, who then holds nothing |
| `PriorityMutex.UnlockReturns` | cpid/prioritymutex.h:86-89 | after unlock nobody holds the data mutex and nobody sleeps, and every other thread is registered as it was |
| `PriorityMutex.TryLockExactly` | cpid/prioritymutex.h:77-84 | try_lock gets the lock exactly with a valid priority and while no thread holds the data mutex, and otherwise does nothing |
| `PriorityMutex.TryLocksExclude` | cpid/prioritymutex.h:77-89 | two threads that got the lock by try_lock, the first of which has not unlocked it since, are one |
| `PriorityMutex.OwnerUntilRelease` | cpid/prioritymutex.h:60-89 | an owner stays one until its own unlock, whatever the others do |
| `PriorityMutex.CanGoMeans` | cpid/prioritymutex.h:92-99 | the scan of the counters says that no registered thread has a higher priority |
| `PriorityMutex.KeepsCounts` | cpid/prioritymutex.h:64-74 | every step keeps the counters exact |
| `PriorityMutex.KeepsSleep` | cpid/prioritymutex.h:69-89 | every step keeps each sleeping thread outranked or about to be notified |
| `PriorityMutex.TopIsQueued` | cpid/prioritymutex.h:69-89 | with the data mutex free and nobody about to notify, the registered thread of highest priority is awake |
| `PriorityMutex.NotifyWakes` | cpid/prioritymutex.h:86-89 | after a notification no thread sleeps, and who was registered still is |
| `PriorityMutex.Mutex.constructor` | cpid/prioritymutex.h:53-55 | counters for priorities 0 to maxPrio, all zero |
| `PriorityMutex.Mutex.CanGo` | cpid/prioritymutex.h:92-99 | the loop decides whether a registered thread has a higher priority |
| `PriorityMutex.Mutex.Register` | cpid/prioritymutex.h:60-67 | an invalid priority is refused, else the thread is counted |
| `PriorityMutex.Mutex.TakeData` | cpid/prioritymutex.h:68 | the data mutex is taken exactly if it is free |
| `PriorityMutex.Mutex.CheckOrSleep` | cpid/prioritymutex.h:69 | passes or goes to sleep and releases the data mutex, in one step |
| `PriorityMutex.Mutex.Leave` | cpid/prioritymutex.h:71-74 | the thread is no longer counted and owns the lock |
| `PriorityMutex.Mutex.TryTake` | cpid/prioritymutex.h:77-84 | succeeds exactly for a valid priority and a free data mutex, whatever priorities wait; the thread then owns the lock, else nothing changes |
| `PriorityMutex.Mutex.FreeData` | cpid/prioritymutex.h:87 | the data mutex is free and the thread about to notify; nobody else moves |
| `PriorityMutex.Mutex.Notify` | cpid/prioritymutex.h:88 | afterwards every sleeper is awake, and nobody else moved |
| `SyncTrainer.Reachable` | cpid/synctrainer.cpp:113-510 | in every run of starts, steps, stops, updates and resets the invariant holds and none of the FATAL or throw branches is reached |
| `SyncTrainer.RunInvariant` | cpid/synctrainer.cpp:239-303 | a buffer is ready exactly if it holds at least returnsLength frames, and active games with a buffer own distinct unfinished ones |
| `SyncTrainer.GamesSeparated` | cpid/synctrainer.cpp:113-141 | adjacent frames of a buffer are of different games exactly where the first is terminal |
| `SyncTrainer.NonFinalOnce` | cpid/synctrainer.cpp:210-303 | without overlapping updates no frame is used as a non-final row twice |
| `FrameUse.UsedAtMost` | cpid/synctrainer.cpp:210-303 | in every run each frame is a non-final row of at most returnsLength - 1 updates with overlapping updates, of at most one otherwise |
| `FrameUse.UsedThatOften` | cpid/synctrainer.cpp:282-303 | that bound is reached, for every configuration |
| `FrameUse.UsedThatOftenWhenGone` | cpid/synctrainer.cpp:210-303 | unless games are stopped, the trainer is reset or insists on the latest model, no frame leaves its buffer unused: each was a non-final row exactly once without overlapping updates, and with them frame n exactly n + 1 times, at most returnsLength - 1 |
| `FrameUse.BaseExactly` | cpid/synctrainer.cpp:285-299 | what an update takes off a selected buffer: one frame with overlapping updates, returnsLength - 1 without, and none of any other buffer |
| `SyncTrainer.DroppedFrames` | cpid/synctrainer.cpp:285-299 | what an update leaves of a buffer: nothing on policy, else all of it if it was not selected, and all but the first frame, or all from the last row of the window on, if it was |
| `FrameUse.UsedExactly` | cpid/synctrainer.cpp:177-208 | an update uses a frame exactly if its buffer is selected and the frame is in the window, but for the last row |
| `SyncTrainer.ReturnsNeverMix` | cpid/synctrainer.cpp:177-208 | the rows that enter the return of a row are all of its own game |
| `SyncTrainer.SameGame` | cpid/synctrainer.cpp:113-141 | frames with no terminal between them are of one game |
| `SyncTrainer.BestFreeIsOldest` | cpid/synctrainer.cpp:458-493 | the buffer taken is the finished one that was updated longest ago, the first of those |
| `SyncTrainer.AcquireKeeps` | cpid/synctrainer.cpp:458-493 | taking a buffer for a game keeps the invariant |
| `SyncTrainer.PushKeeps` | cpid/synctrainer.cpp:113-141 | adding a frame keeps the invariant |
| `SyncTrainer.ClearKeeps` | cpid/synctrainer.cpp:427-443 | dropping the frames of a stopped game keeps the invariant |
| `SyncTrainer.UpdateBuffers` | cpid/synctrainer.cpp:282-303 | an update keeps buffers and their owners in order |
| `SyncTrainer.UpdateReady` | cpid/synctrainer.cpp:285-299 | an update leaves exactly the buffers that are still long enough ready |
| `SyncTrainer.UpdateUsed` | cpid/synctrainer.cpp:285-299 | what an update leaves in the buffers was not used as a non-final row |
| `SyncTrainer.KeepsInv` | cpid/synctrainer.cpp:113-510 | every event keeps the invariant and raises no fault |
| `SyncTrainer.Trainer.constructor` | cpid/synctrainer.cpp:79-105 | a new trainer is the start of every run |
| `SyncTrainer.Trainer.StartGame` | cpid/trainer.cpp:271-276 | a new game becomes active |
| `SyncTrainer.Trainer.PrepareForward` | cpid/synctrainer.cpp:403-411 | only with frames of the latest model, an active game takes its buffer before a forward pass |
| `SyncTrainer.Trainer.SetTraining` | cpid/synctrainer.cpp:311-318 | training is on or off, and nothing else changes |
| `SyncTrainer.Trainer.GetBufferForHandle` | cpid/synctrainer.cpp:458-493 | the buffer a game owns, or the best free one, or a new one |
| `SyncTrainer.Trainer.StepEpisode` | cpid/synctrainer.cpp:113-141 | one frame, with its reward and flag, is added at the end of the buffer of its game; the last one releases the buffer; other buffers stay |
| `SyncTrainer.Trainer.ForceStopEpisode` | cpid/synctrainer.cpp:427-443 | the frames of a stopped game are dropped and its buffer is released |
| `SyncTrainer.Trainer.Select` | cpid/synctrainer.cpp:239-256 | distinct ready buffers, as many as the batch size allows, all of them long enough |
| `SyncTrainer.Trainer.CreateBatch` | cpid/synctrainer.cpp:177-208 | column j holds the rewards and terminal flags of the first returnsLength frames of buffer j |
| `SyncTrainer.Trainer.Targets` | cpid/a2c.cpp:96-135 | the training targets of the selected buffers are the intended returns |
| `SyncTrainer.Trainer.UpdateModel` | cpid/synctrainer.cpp:210-309 | a whole update: targets from the batch, then the used frames are dropped |
| `SyncTrainer.Trainer.Trim` | cpid/synctrainer.cpp:282-309 | the end of an update: the used frames are dropped and the selected buffers, and no others, get its number |
| `SyncTrainer.Trainer.DropFrames` | cpid/synctrainer.cpp:285-299 | the loop does to every buffer what `DroppedFrames` says, and takes short buffers off the ready set |
| `SyncTrainer.Trainer.Stamp` | cpid/synctrainer.cpp:300-302 | the selected buffers, and no others, get the number of this update |
| `SyncTrainer.Trainer.ResetTrainer` | cpid/synctrainer.cpp:495-510 | a reset is the reset of the model, and keeps the invariant |
| `A2C.ReturnRecurrence` | cpid/a2c.cpp:122-135 | the loop step, with its terminal mask, holds of the discounted sum up to the first terminal row, or with the value of the last row if there is none |
| `A2C.ReturnLast` | cpid/a2c.cpp:114-122 | the loop starts from the value of the last row |
| `A2C.SumFirst` | cpid/a2c.cpp:122-135 | the first reward can be taken out of a discounted sum |
| `A2C.DecayedIs` | cpid/a2c.cpp:122-135 | one pass of the loop turns the returns of a row into those of the row before it |
| `A2C.Returns` | cpid/a2c.cpp:96-135 | the backward loop computes, for every row and column, the discounted rewards up to the first terminal row and the bootstrap value only if there is none before the last row |
| `A2C.FirstTerminal` | cpid/a2c.cpp:122-135 | the first terminal row from a row on, or the last row, whose own flag is not looked at |
| `Batch.RoundTrip` | cpid/batcher.cpp:281-435 | for queries with the same keys that batch at all, unbatching the batch gives the queries back exactly if they hold no scalar tensor and no empty dictionary |
| `Batch.SameShapeRoundTrip` | cpid/batcher.cpp:281-435 | same-shaped queries with hereditarily non-empty dictionaries and tensors with a first dimension always batch and come back unchanged, with any row counts |
| `Batch.SameShapeBatches` | cpid/batcher.cpp:346-422 | such queries meet the condition of the round trip |
| `Batch.MakeBatchExactly` | cpid/batcher.cpp:346-422 | what batches: tensors of one inner shape, or dictionaries with the same keys, none reserved, and under each key tensors of as many dimensions that batch, or dictionaries that do |
| `Batch.UnBatchExactly` | cpid/batcher.cpp:281-344 | what unbatches: a dictionary all keys of which come to as many elements |
| `Batch.ProperIsClean` | cpid/batcher.cpp:346-422 | queries without scalars and empty dictionaries meet that condition whenever they batch, whatever their shapes |
| `Batch.SplitConcat` | cpid/batcher.cpp:227-279 | splitting the concatenation by the recorded sizes gives the tensors back |
| `Batch.SizesSurvive` | cpid/batcher.cpp:424-435 | sizes written as a tensor are read back unchanged |
| `Batch.KeyUnBatches` | cpid/batcher.cpp:281-344 | each key of the batch unbatches to the column of that key |
| `Batch.ColumnRoundTrip` | cpid/batcher.cpp:281-344 | the round trip of one key |
| `Batch.ConcatForward` | cpid/batcher.cpp:246-279 | a row-wise model applied to the concatenation is the concatenation of its results, also where it reads the same row of other keys |
| `Batch.TensorsForward` | cpid/batcher.cpp:246-279 | batching tensors commutes with a row-wise model |
| `Batch.BatchBeside` | cpid/batcher.cpp:346-422 | what the model reads beside a key in the batch is what it reads beside it in the queries, one after the other |
| `Batch.Commutes` | cpid/batcher.cpp:346-422 | batching nested dictionaries commutes with a row-wise model that keeps batch_info, where the row of a key may depend on the same row of any keys beside it |
| `Batch.Transparent` | cpid/batcher.cpp:281-422 | unbatching what the model makes of the batch gives the answer of the model on each query |
| `Batch.KeywiseIsAligned` | cpid/batcher.cpp:346-422 | a model that looks at each key alone needs no key to have as many rows as another |
| `Batch.KeyCount` | cpid/batcher.cpp:281-344 | a key with tensors unbatches to one element for each query |
| `Batch.ReplyCount` | cpid/batcher.cpp:281-344 | unbatching gives one reply for each query, or none at all if the queries hold no tensor |
| `AddedKey.AddedKeyExactly` | cpid/batcher.cpp:281-344 | a batch to which a model added a key unbatches exactly if the key has one row for each query, and each query then gets its row |
| `AddedKey.AddedKeyAnswers` | cpid/batcher.cpp:281-422 | the same for a row-wise model that adds a key: each query gets the answer of the model and its row |
| `AddedKey.RowByRow` | cpid/batcher.cpp:227-244 | without sizes a tensor unbatches to its rows, or to one-row tensors if the rows are numbers |
| `AddedKey.BatchRows` | cpid/batcher.cpp:246-279 | the rows of a query are in the batch after those of the queries before it |
| `Batcher.Reachable` | cpid/batcher.cpp:63-160 | in every run queries and promises stay side by side, in the order of the calls, and no batch exceeds batchSize |
| `Batcher.TakeExactly` | cpid/batcher.cpp:105-133 | the consumer takes min(batchSize, queued) queries with their promises from the front, or goes to sleep on an empty queue |
| `Batcher.CallersGetTheirAnswer` | cpid/batcher.cpp:63-160 | in every run, with queries of any shapes that hold no scalar and no empty dictionary, every settled promise holds an exception or the answer of the model on its own query, and the consumer never aborts |
| `Batcher.SameShapeNeverFails` | cpid/batcher.cpp:63-160 | with queries of one shape and a model that does not throw, it is always the answer |
| `Batcher.ProperAnswers` | cpid/batcher.cpp:135-160 | a batch of such queries comes to an exception or to the answers of the model, in order |
| `Batcher.SettledOnce` | cpid/batcher.cpp:135-160 | a settled promise keeps its value |
| `Batcher.NoLostWakeup` | cpid/batcher.cpp:70-106 | in every run the consumer sleeps on a queue that is not empty only while a caller is about to notify it |
| `Batcher.NotifyExactly` | cpid/batcher.cpp:85 | a caller that notifies has done so, and the consumer is awake |
| `Batcher.AnswerCanCome` | cpid/batcher.cpp:63-160 | from every reachable state callers and consumer can go on, without a spurious wakeup, until the promise of a given query is settled |
| `Batcher.FatalExactly` | cpid/batcher.cpp:144-150 | the consumer aborts over the number of replies exactly if the batch computes and its queries hold no tensor |
| `Batcher.SetAllSets` | cpid/batcher.cpp:152-160 | the i-th outcome goes to the i-th promise of the batch, to no other |
| `Batcher.AsyncBatcher.constructor` | cpid/batcher.cpp:17-35 | a new batcher is the start of every run |
| `Batcher.AsyncBatcher.Enqueue` | cpid/batcher.cpp:70-85 | query and promise enter the queues at the same place |
| `Batcher.AsyncBatcher.TakeBatch` | cpid/batcher.cpp:120-133 | the front of both queues, as many as there are up to batchSize |
| `Batcher.AsyncBatcher.MoveFront` | cpid/batcher.cpp:120-133 | the first elements are moved out and the rest moved up |
| `Blackboard.OwnershipAfterUpdate` | src/blackboard.cpp:348-463 | after every update of every run the map from units to tasks is exactly the unit sets of the tasks, and these are pairwise disjoint, exactly if no finished task left on the board shared a unit with another such task or with a newer claimant when the turns began |
| `Blackboard.Reachable` | src/blackboard.cpp:175-463 | the board invariant over every run of posts, with or without auto-removal, cancels, marks and updates |
| `Blackboard.ExactExactly` | src/blackboard.cpp:348-463 | the same condition for one update of any board that satisfies the invariant |
| `Blackboard.UpdateMeans` | src/blackboard.cpp:348-463 | who has a unit after an update, and to whom the map assigns it, in terms of the board before the turns |
| `Blackboard.AfterTurns` | src/blackboard.cpp:420-463 | turns from the newest task to the oldest: a task keeps a unit it claims exactly if no newer finished task has it, and stays the assigned one exactly if no older finished task has it |
| `Blackboard.AfterTurnsOfOthers` | src/blackboard.cpp:420-463 | a task without a turn loses the assignment exactly to a finished task that has the unit |
| `Blackboard.TurnMeans` | src/blackboard.cpp:422-463 | the turn of one task decides its own units, takes over the map for them, and touches no other task |
| `Blackboard.ConflictShares` | src/blackboard.cpp:420-463 | where the condition fails two tasks have the same unit afterwards |
| `Blackboard.AutoRemovedIsExact` | src/blackboard.cpp:457-462 | in runs that post with auto-removal ownership is always exact and disjoint |
| `Blackboard.HarmlessReachable` | src/blackboard.cpp:457-462 | in such runs every finished task with units is due for removal |
| `Blackboard.LastPosterKeeps` | src/blackboard.cpp:175-190 | if the unit lives and its controller keeps it, the last task posted for it has it to itself after the next update exactly if no finished task left on the board has it |
| `Blackboard.HolderKeeps` | src/blackboard.cpp:407-463 | an update leaves a unit to the one task that holds it exactly if no finished task left on the board has it |
| `Blackboard.ExactIsDisjoint` | src/blackboard.cpp:407-463 | an exact map has disjoint unit sets |
| `BoardEvents.PostExactly` | src/blackboard.cpp:175-190 | posting enters the task with its units on the board and at its controller, and takes these units from whom they were assigned to; a taken id is refused |
| `BoardEvents.CancelExactly` | src/controller.cpp:136-149 | cancelling an ongoing task makes it Cancelled and takes its units from it and its controller; every other task, assignment and controller entry stays |
| `BoardEvents.CancelledLeaves` | src/controller.cpp:136-149 | a cancelled task is assigned no unit after the next update, and with auto-removal it is off the board after the one that follows |
| `BoardEvents.CancelLetsGo` | src/controller.cpp:197-209 | once a task is cancelled no controller knows any unit under its id, in runs that post no id twice |
| `BoardEvents.StaleEntryStays` | src/blackboard.cpp:349-378 | the run in which one does: a marked task leaves the board but not the map of its controller, and its id is posted again |
| `BoardEvents.MarkedIsRemoved` | src/blackboard.cpp:239-242 | a marked task is off the board and its indices after the next update |
| `BoardEvents.PendingExactly` | src/blackboard.cpp:349-416 | an update drops exactly the tasks that are due, and unassigns their units and the dead ones |
| `BoardEvents.StatusAfterUpdate` | src/controller.cpp:100-134 | a finished task stays as it is, a shared one fails exactly without units, any other follows its controller; finished ones with auto-removal, and no others, are then due |
| `BoardEvents.ControlAfterUpdate` | src/controller.cpp:100-134 | in an update a controller lets go of exactly the units that its tasks give up |
| `Blackboard.SharedAgreement` | src/controller.cpp:18-40 | after each update a shared controller maps a unit to an id exactly if the board assigns the unit to the task with that id and it is the task of that controller; this holds exactly unless an older finished task takes the unit after that task kept it |
| `Blackboard.SharedReachable` | src/controller.cpp:155-209 | the invariant behind that agreement, over every run |
| `Blackboard.AgreeExactly` | src/controller.cpp:100-134 | that agreement for one update of any board that satisfies the invariants |
| `Blackboard.LeftoverTaskStealsBack` | src/blackboard.cpp:407-463 | on every board where one finished task has a unit that a newer task claims, both have the unit after the update, and the map gives it to the finished one |
| `Blackboard.LeftoverReachable` | src/blackboard.cpp:407-463 | a run without auto-removal after which ownership is neither exact nor disjoint |
| `Blackboard.Board.constructor` | src/blackboard.cpp:63-70 | an empty board |
| `Blackboard.Board.AddAll` | src/controller.cpp:18-20 | every unit of the new task is entered with its id |
| `Blackboard.Board.PostTask` | src/blackboard.cpp:175-190 | refused exactly if the id is taken, else entered in all three indices, with or without auto-removal |
| `Blackboard.Board.TaskWithUnit` | src/blackboard.cpp:210-216 | on an updated board the task found is the only one that has the unit, and one is found whenever one has it |
| `Blackboard.Board.UpdateControllerTask` | src/controller.cpp:100-134 | units that died, are not kept or belong to another task leave both the task and its controller |
| `Blackboard.Board.CancelTask` | src/controller.cpp:136-149 | a cancelled task and its controller let go of their units |
| `Blackboard.Board.MarkTaskForRemoval` | src/blackboard.cpp:239-242 | the id is noted for the next update |
| `Blackboard.Board.RemoveDueTasks` | src/blackboard.cpp:349-378 | marked tasks leave the board and all its indices |
| `Blackboard.Board.UpdateBoard` | src/blackboard.cpp:348-463 | the whole update; afterwards the map is exact exactly under the condition of `ExactExactly` |
| `Blackboard.Board.RegisterTask` | src/blackboard.cpp:444-462 | the units of the task are re-entered and a finished task is marked |
| `DataReader.Reachable` | common/datareader.h:294-412 | the invariant over every interleaving of one consumer and any number of readers, with a consumer that looks again only when woken |
| `DataReader.BatchesAreData` | common/datareader.h:300-343 | the batches returned so far, one after the other, are the readable data in path order, each once; only the last batch can be short, at the end of the data |
| `DataReader.EndMeansAll` | common/datareader.h:294-298 | when hasNext is false every readable datum was returned |
| `DataReader.HasNextExactly` | common/datareader.h:294-298 | between calls hasNext is true exactly if some path has not been consumed |
| `DataReader.ReadExactly` | common/datareader.h:376-404 | a reader fulfils the promise of its position with what is in the file |
| `DataReader.LooksAgain` | common/datareader.h:314-328 | a consumer that looks in vain goes back to sleep, and every fifth time enlarges the queue by half |
| `DataReader.ReturnWakes` | common/datareader.h:339-343 | a call that returns brings the queue back to its normal size and wakes all readers |
| `DataReader.ReadersAwake` | common/datareader.h:300-412 | with enough readable data in reach of each batch, a consumer that waits for a missing datum finds an empty queue and no sleeping reader |
| `DataReader.SleepExactly` | common/datareader.h:300-412 | a reader can sleep while the consumer waits exactly if some batch cannot be filled from the queue it starts with |
| `DataReader.DeadlockExactly` | common/datareader.h:300-412 | a call of next that can never return, whatever the readers do, is reachable exactly if some batch cannot be filled from the queue it starts with |
| `DataReader.NoLostNotification` | common/datareader.h:314-407 | in every run, if the consumer sleeps although its datum is in the queue, a reader is reading that datum or about to notify it; whatever is pending is being read |
| `DataReader.CallCanReturn` | common/datareader.h:300-412 | with enough readable data a call of next can return from every reachable state, without a spurious wakeup |
| `DataReader.SleeperIsWoken` | common/datareader.h:314-407 | a consumer whose datum was claimed gets it by the steps of that reader alone |
| `DataReader.AwakeReaderServes` | common/datareader.h:354-412 | with enough readable data a reader can claim the datum that a consumer waits for |
| `DataReader.Places` | common/datareader.h:354-374 | in every run a position that a reader holds is a pending place of the queue, no two readers hold the same one, and a reader is done only when all data was claimed |
| `DataReader.ReadersCanSleep` | common/datareader.h:300-412 | otherwise a run exists after which the consumer waits for a missing datum and all readers sleep, for any number of readers |
| `DataReader.StuckForever` | common/datareader.h:300-412 | if no reader is at work then, no reader and no batch changes again without a spurious wakeup |
| `DataReader.NextIs` | common/datareader.h:300-343 | where a batch ends depends on the data alone: at the earliest position that fills it |
| `DataReader.Iterator.constructor` | common/datareader.h:54-73 | a new iterator is the start of every run |
| `DataReader.Iterator.TryClaim` | common/datareader.h:354-374 | a reader claims the next position exactly if the queue has room |
| `DataReader.Iterator.TakeReady` | common/datareader.h:300-343 | the loop of next takes what is ready, in order, until the batch is full, the data ends or a datum is missing |
| `ESTrainer.Reachable` | cpid/estrainer.cpp:52-470 | in every run the invariant holds, or the trainer aborted over games left at the end of an update |
| `ESTrainer.Conservation` | cpid/estrainer.cpp:257-307 | games started are the games in play plus the finished unused ones, never more than the batch size; no other abort is reachable |
| `ESTrainer.LeftOverExactly` | cpid/estrainer.cpp:257-273 | that abort happens exactly if an update ends while a game is between the two halves of forceStopEpisode |
| `ESTrainer.LeftOverHappens` | cpid/estrainer.cpp:277-287 | a run in which it does |
| `ESTrainer.AtomicStopsAreSafe` | cpid/estrainer.cpp:277-287 | if no other step comes between the two halves, no run aborts |
| `ESTrainer.LookupsInRange` | cpid/estrainer.cpp:155-191 | every model lookup is inside the history, whose generations are contiguous, and finds its generation |
| `ESTrainer.BatchLookup` | cpid/estrainer.cpp:155-191 | the games of a batch were all played with the latest model |
| `ESTrainer.HistoryExactly` | cpid/estrainer.cpp:234-244 | in every run the history holds the latest generations, all from 0 on until there are historyLength of them |
| `ESTrainer.DuringUpdate` | cpid/estrainer.cpp:71-90 | during an update no game is in play and no batch game is of an older generation |
| `ESTrainer.Step` | cpid/estrainer.cpp:52-470 | every step keeps the invariant, or is the one abort |
| `ESTrainer.FinishIs` | cpid/estrainer.cpp:234-273 | what an update leaves behind |
| `ESTrainer.Trainer.constructor` | cpid/estrainer.cpp:24-50 | a new trainer is the start of every run |
| `ESTrainer.Trainer.StartEpisode` | cpid/estrainer.cpp:289-307 | a game is admitted exactly if fewer than batchSize were started |
| `ESTrainer.Trainer.ReadGenerationOf` | cpid/estrainer.cpp:327-331 | the game gets the latest generation |
| `ESTrainer.Trainer.GenerateModelFor` | cpid/estrainer.cpp:332-338 | the game is entered with its generation, or fails if that has left the history |
| `ESTrainer.Trainer.FinishEpisode` | cpid/estrainer.cpp:52-63 | a finished game leaves the active ones and joins the finished ones |
| `ESTrainer.Trainer.ForceStopBegin` | cpid/estrainer.cpp:277-285 | the first half of a stop |
| `ESTrainer.Trainer.ForceStopEnd` | cpid/estrainer.cpp:286-287 | the second half of a stop |
| `ESTrainer.Trainer.ResetTrainer` | cpid/estrainer.cpp:460-470 | no game is left |
| `ESTrainer.Trainer.BeginUpdate` | cpid/estrainer.cpp:71-90 | an update begins exactly if a batch of games is finished |
| `ESTrainer.Trainer.FinishUpdate` | cpid/estrainer.cpp:155-273 | without a half-done stop an update ends without abort: the next generation joins the history, the oldest leaves if there are too many, and no game is started or finished |
| `HeartBeat.Reachable` | cpid/cpid2kworker.cpp:145-297 | the invariant of the watched keys over every interleaving with other Redis clients |
| `HeartBeat.LoopWritesWhileAlive` | cpid/cpid2kworker.cpp:203-260 | a heartbeat of the loop takes effect only while the dead key is absent, whatever happened since it was looked up |
| `HeartBeat.DeadStaysSilent` | cpid/cpid2kworker.cpp:203-260 | once the dead key is set and stays set, nothing but boot() writes a heartbeat, in any run |
| `HeartBeat.BootIgnoresDead` | cpid/cpid2kworker.cpp:145-187 | boot() writes its heartbeat although the dead key is set |
| `HeartBeat.SilentExactly` | cpid/cpid2kworker.cpp:145-260 | a dead worker is silent in every continuation exactly if the boot key is absent too |
| `HeartBeat.BootsStep` | cpid/cpid2kworker.cpp:145-187 | only creating the boot key makes another boot possible |
| `HeartBeat.BootsBounded` | cpid/cpid2kworker.cpp:145-187 | processes that passed boot() are at most the creations of the boot key |
| `HeartBeat.OneBootPerCreation` | cpid/cpid2kworker.cpp:145-187 | of any number of processes at most one more passes boot() while the boot key is not created again |
| `HeartBeat.BeatersBooted` | cpid/cpid2kworker.cpp:145-297 | a process in the heartbeat loop has passed boot() |
| `HeartBeat.OneBeater` | cpid/cpid2kworker.cpp:145-297 | if the boot key was created once, all processes in the loop are one |
| `HeartBeat.UndisturbedSucceeds` | cpid/cpid2kworker.cpp:145-260 | undisturbed, a process boots if the boot key is there, and beats if the dead key is not |
| `HeartBeat.KeyWritten` | cpid/cpid2kworker.cpp:145-260 | writing a key sets it and spoils every transaction that watches it |
| `HeartBeat.SpoiledWritesNothing` | cpid/cpid2kworker.cpp:166-184 | a spoiled transaction writes nothing and ends the process |
| `HeartBeat.LooksExactly` | cpid/cpid2kworker.cpp:157-228 | a process goes on exactly if the boot key is there, and in the loop exactly if the dead key is not |
| `HeartBeat.ExceptionExactly` | cpid/cpid2kworker.cpp:262-290 | an exception ends boot, but not the loop, which starts anew without watched keys on a new connection; giving up ends it |
| `Glob.StringMatch` | common/str.cpp:19-141 | the matcher terminates and accepts a non-empty string exactly if the string can be cut into pieces for the tokens of the pattern; the empty string only for the empty pattern |
| `Glob.Gmatch` | common/str.cpp:201-204 | the matcher agrees with that meaning exactly unless the string is empty and the pattern a non-empty run of stars |
| `Glob.MatchFrom` | common/str.cpp:19-141 | the same from any position of pattern and string |
| `Glob.MatchStar` | common/str.cpp:27-42 | the recursion for a star tries every rest of the string |
| `Glob.MatchOne` | common/str.cpp:43-126 | one token against one character, and where the token ends |
| `Glob.MatchClass` | common/str.cpp:49-109 | the loop over a character class, with negation, ranges either way round, escapes and a missing bracket |
| `Glob.SkipStars` | common/str.cpp:130-136 | at the end of the string only stars may be left |
| `Glob.MatchesIsDenotes` | common/str.cpp:19-141 | the recursive and the declarative meaning of a token list agree |
| `Glob.AtToken` | common/str.cpp:19-141 | one token of the meaning at a position |
| `Glob.EmptyMatch` | common/str.cpp:130-136 | the empty rest matches exactly a run of stars |
| `Glob.StarStar` | common/str.cpp:28-31 | two stars mean one |
| `Glob.ParseToken` | common/str.cpp:24-126 | a token takes at least one character, and is a star exactly at a star |
| `Glob.TokenMeans` | common/str.cpp:24-126 | what each kind of token accepts, in terms of the characters of the pattern |
| `Glob.ClassMeans` | common/str.cpp:49-109 | what the rest of a class accepts: escapes, ranges either way round, single characters, up to the bracket or the end of the pattern |
| `Glob.ListMeans` | common/str.cpp:49-109 | a list of characters in brackets accepts exactly those, and after a caret exactly the others |
| `Glob.RangeMeans` | common/str.cpp:72-89 | a range accepts exactly the characters between its ends |
| `Glob.RoleTail` | cpid/cpid2kworker.cpp:31-34 | from any place on, the role pattern asks for the rest of the role, an underscore and anything |
| `Glob.FollowsMeans` | cpid/cpid2kworker.cpp:31-34 | the same as a prefix of the rest of the string |
| `Glob.RolePatternMeans` | cpid/cpid2kworker.cpp:31-34 | the whole pattern: one character, the role, an underscore, anything |
| `Glob.RoleIs` | cpid/cpid2kworker.cpp:64-66 | for a role without metacharacters: true exactly for one character, the role, an underscore and anything |
| `AreaCache.AreaInfo.PopulateCache` | src/areainfo.cpp:133-176 | the breadth-first search fills the cache so that every tile without an area has an area at minimum Chebyshev distance, and all such tiles are covered if the map has any area |
| `AreaCache.AreaInfo.GetCachedArea` | src/areainfo.cpp:178-193 | the area of the tile, or a nearest one; none exactly if the map has no area at all |
| `AreaCache.AreaInfo.Seeds` | src/areainfo.cpp:145-156 | the queue starts with all tiles that have an area |
| `AreaCache.AreaInfo.Visit` | src/areainfo.cpp:167-173 | one neighbour: marked and queued once |
| `AreaCache.AreaInfo.Expand` | src/areainfo.cpp:161-174 | all eight neighbours of the front tile |
| `AreaCache.ShortestPath` | src/areainfo.cpp:158-175 | Chebyshev distance is the length of a shortest path of steps to the eight neighbours |
| `AreaCache.PathIsLong` | src/areainfo.cpp:158-175 | no path is shorter than that |
| `AreaCache.LevelIsDistance` | src/areainfo.cpp:161-175 | when the queue is empty no seed is closer to a tile than its level |
| `AreaCache.SearchIsOver` | src/areainfo.cpp:161-175 | an empty queue means that the cache is complete and right |
| `AreaCache.Discover` | src/areainfo.cpp:168-173 | discovering a tile keeps the search in step |
| `AreaCache.Pop` | src/areainfo.cpp:161-165 | taking the front tile keeps the levels in order |
| `AreaCache.Map.IdInjective` | src/areainfo.cpp:138-142 | different tiles have different ids, all inside the seen vector |
| `AreaCache.Map.IdIsLinear` | src/areainfo.cpp:138-142 | the id is width times row plus column |
| `UnitContainers.GroupsAreExact` | src/unitsinfo.cpp:341-450 | after every update each group but the powered units of the player holds exactly the units it is for, each once |
| `UnitContainers.Reachable` | src/unitsinfo.cpp:341-450 | the invariant behind that, over every sequence of frames |
| `UnitContainers.UpdateIsExact` | src/unitsinfo.cpp:341-450 | one update makes the groups exact, and units in sight were seen in this frame |
| `UnitContainers.LiveSplits` | src/unitsinfo.cpp:758-760 | the live units are the visible and the hidden ones, and no unit is both |
| `UnitContainers.ShownIsVisible` | src/unitsinfo.cpp:341-390 | a unit shown in this frame is in sight after the update |
| `UnitRecords.DeadExactly` | src/unitsinfo.cpp:341-408 | in every run the units known are those that were shown, and those are dead of whose death a frame told, in or after the frame that first showed the unit |
| `UnitRecords.DeathExactly` | src/unitsinfo.cpp:396-408 | over a frame: a unit is dead afterwards exactly if it was, or the frame tells of its death |
| `UnitRecords.DeadIsInNoGroup` | src/unitsinfo.cpp:736-787 | in every run a dead unit is among all units ever and in no other group, that of the powered units included |
| `UnitRecords.ShownRecord` | src/unitsinfo.cpp:341-394 | after a frame that shows a unit its record has the player, the flags and the type that were shown; it is in sight and, if it lives, not gone |
| `UnitRecords.UnshownRecord` | src/unitsinfo.cpp:410-449 | a unit that is not shown keeps what was noted about it; whether it is in sight, gone, and when its clock starts follow from its own record |
| `UnitContainers.PutKeeps` | src/unitsinfo.cpp:737-755 | putting in and swap-removing keep positions and back indices inverse to each other in every group, and decide only this unit in this group |
| `UnitContainers.LinkedMeans` | src/unitsinfo.cpp:737-755 | back indices are set exactly for the units in the vector, which holds none twice |
| `UnitContainers.RegroupedIs` | src/unitsinfo.cpp:736-787 | after updateGroups the unit is exactly in the groups it belongs to, and no other unit moved |
| `UnitContainers.RightListsStay` | src/unitsinfo.cpp:736-787 | a group that is already right about the unit keeps its vector as it is |
| `UnitContainers.UnchangedBelongs` | src/unitsinfo.cpp:354-383 | a change that does not trigger regrouping changes no membership, but for the powered units of the player |
| `UnitContainers.ObserveKeeps` | src/unitsinfo.cpp:341-394 | the treatment of one shown unit keeps the groups exact |
| `UnitContainers.KillKeeps` | src/unitsinfo.cpp:396-408 | the treatment of one death keeps the groups exact |
| `UnitContainers.HideUnseenKeeps` | src/unitsinfo.cpp:410-424 | the two loops over visible units keep the groups exact, and afterwards every visible unit was seen in this frame and is not gone |
| `UnitContainers.VanishKeeps` | src/unitsinfo.cpp:426-449 | the treatment of one hidden unit keeps the groups exact and the vector of hidden units as it is |
| `UnitContainers.VanishFirstKeeps` | src/unitsinfo.cpp:426-449 | so the loop over hidden units, which regroups, never changes the vector it runs over |
| `UnitContainers.GoneExactly` | src/unitsinfo.cpp:426-449 | over a whole update a hidden unit that is not shown and does not die becomes gone exactly if its last place is in view and its clock started between 20 and 39 frames ago |
| `UnitContainers.MineExactly` | src/unitsinfo.cpp:766-769 | the group of powered units stays right about a shown unit exactly if the unit is regrouped, is dead or foreign, or did not change its power |
| `UnitContainers.MineFrameExactly` | src/unitsinfo.cpp:341-450 | over a whole update that group is right about a unit it was right about, or a new one, exactly unless the power of the unit changes unnoticed and neither its death nor its reappearance regroups it |
| `UnitContainers.MineRunExactly` | src/unitsinfo.cpp:341-450 | the group is right after every update of a run exactly if that never happens |
| `UnitContainers.HideMine` | src/unitsinfo.cpp:410-424 | the loops over visible units repair the group exactly for those that were gone or were not shown |
| `UnitContainers.MineGoesStale` | src/unitsinfo.cpp:354-387 | a unit under construction that loses power stays among the powered units |
| `UnitContainers.UnitsInfo.constructor` | src/unitsinfo.cpp:215-221 | no units and empty groups |
| `UnitContainers.UnitsInfo.UpdateUnitContainer` | src/unitsinfo.cpp:737-755 | push, or swap with the back and pop, in place |
| `UnitContainers.UnitsInfo.UpdateGroups` | src/unitsinfo.cpp:736-787 | the thirteen groups, one after the other |
| `UnitContainers.UnitsInfo.UpdateUnit` | src/unitsinfo.cpp:343-394 | a shown unit is noted, and regrouped if one of the watched attributes changed |
| `UnitContainers.UnitsInfo.ObserveUnits` | src/unitsinfo.cpp:341-394 | the loop over the shown units |
| `UnitContainers.UnitsInfo.CountDeaths` | src/unitsinfo.cpp:396-408 | the loop over the deaths: known units die and are regrouped, unknown ids are skipped |
| `UnitContainers.UnitsInfo.HideUnits` | src/unitsinfo.cpp:410-424 | the visible vector is not touched while it is looked through |
| `UnitContainers.UnitsInfo.VanishUnits` | src/unitsinfo.cpp:426-449 | the loop reads the hidden vector while regrouping, and the vector stays the same |
| `UnitContainers.UnitsInfo.Update` | src/unitsinfo.cpp:341-450 | a whole update; afterwards the groups are exact |

## Left out

- Message serialisation, compression, ZeroMQ sockets and polling: a send happens or does
  not.
- Stopping: the destructors and stop flags of client, consumer, producer, batcher and
  data reader.
- A change of `maxRetries` or of the reply timeout while requests are in flight; the
  bound on attempts is for a fixed `maxRetries`.
- `ReqRep.RequestClient.SendRequests`: the attempts to send stop failing after a while;
  the source would go on trying.
- `ReqRep.RequestClient.Drain` and `ReqRep.RequestClient.SwitchEndpoints`: the last round
  given is one in which all that is in flight has timed out; the source waits for it.
- `ReqRep.RequestClient.SendOne`: ids come from a counter; the state machine allows any
  unused id, and the source draws random ones and assumes that they differ.
- `Pipeline.Consumer.ReapPending`: one pass of the loop; the source repeats it, with
  pauses, until there is room.
- Fairness: that a message can always be confirmed, a call answered and a batch
  returned is proved as a run that leads there, not for every fair run.
- `Delivery.CanBeConfirmed`: for a client with endpoints, now and after a pending change;
  without them nothing can be sent.
- `PriorityMutex.Mutex.TryTake` and `PriorityMutex.Mutex.Register`: the exception for an
  invalid priority is a false result.
- Torch tensors, gradients, losses, optimisers, samplers, devices and rounding; a
  return is a real number and a tensor a sequence of rows.
- `Batch.RoundTrip`: padding of differing inner dimensions is not modelled, so tensors
  whose inner sizes differ are an error. Keys that unbatch to different lengths are an
  error too; the source throws, or reads out of range when the key without elements
  comes first.
- `Batch.Commutes`, `Batch.Transparent` and `Batcher.CallersGetTheirAnswer`: where the
  model reads several keys together, these have as many rows as each other in every
  query. The queue is not modelled with a model that adds keys; one batch is, in
  `AddedKey`.
- Metrics, cumulative rewards and the evaluator.
- Several ranks, antithetic seeds and importance weights of the evolution-strategies
  trainer.
- Blackboard UPC storage, commands and filters, `updateTasksByUnit`, and tasks of
  modules other than controller tasks; a post that is refused after its controller
  task was built.
- `Blackboard.SharedAgreement`: for runs in which tasks leave the board by finishing or
  being cancelled; `markTaskForRemoval` takes an ongoing task away without telling its
  controller.
- `BoardEvents.CancelLetsGo`: for runs that post no id twice, as the numbering of UPCs has
  it; a controller may still know units under an id that was used before.
- Expiry of Redis keys, the command channel and the rank computation of `dcontext`.
- The case-insensitive mode of the glob matcher, and reading past a pattern that is not
  terminated.
- `UnitContainers.Reachable`: the perspective is fixed and position inference is off;
  sight ranges, threats, the groups by type and the unrestricted view of the map are
  not modelled.
- `UnitContainers.MineFrameExactly` and `UnitContainers.MineRunExactly`: for frames that
  show a unit at most once, as the game sends them.
- Drawing, logging, command line, file utilities, the fork server and the other small
  containers: each is one call into a library or keeps a single collection, with no
  state shared between operations to be kept in step.
