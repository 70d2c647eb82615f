# Shove: queues, pump and squasher

Shove delivers push notifications. Clients queue messages, a pump's workers take them from a queue and
push them, and a squasher limits the rate per destination: messages above the rate are gathered in one
batch per key and sent later as one. This project models that machinery in Dafny and proves what it
keeps, over every interleaving of workers, squasher, signals, clients and shutdown.

| files | what they model |
|---|---|
| `Window`, `Limiter`, `LimiterRuns`, `LimiterDue`, `LimiterExact`, `LimiterClients`, `LimiterNames` | the sliding-window limiter: its critical sections as events, its invariant, its bounds over runs |
| `Squasher` | the squasher object with its two maps, proved to perform exactly the limiter's events |
| `SlotQueue`, `MemoryQueue` | the in-memory queue: slots that are reused, message records changed in place |
| `System`, `SystemInvariant`, `SystemWakeups`, `SystemProgress`, `SystemWork`, `SystemTheorems`, `SystemDrains`, `SystemTight`, `SystemPostpones`, `SquasherStop` | the whole pump as a step system, one event per critical section |
| `Rounds`, `Settling`, `Pump`, `SystemRounds` | a worker's loop and the sending of a batch, run on the queue and squasher objects, and why they are steps of the system |
| `DigestText`, `Telegram` | squashing Telegram messages into one |
| `RedisList`, `RedisLog`, `Feedback`, `RedisQueue`, `AbstractQueue` | the Redis-backed stores and queue, and what they share with the in-memory ones |

How it is modelled:

* A section run under a lock is one atomic event. Every `time.Since` and `time.Now` is a reading of its
  own; the readings of a section lie between the clock before it and the clock after it, and the clock
  never goes back. Times are integers in nanoseconds, and 0 is the zero time.
* Pushing is an oracle that answers success, temporary failure or hard failure.
* A call of `Signal` that follows an unlock is a token that is delivered later, to any blocked worker.
* In `System`, `owner`, and in `Limiter`, `hist`, `squashed` and `sent`, are history variables. They
  guide no step. The theorems on ownership speak of `At`, which is read off the queue, the workers and
  the batches alone.
* The objects of `Pump` are proved against functions that say what one round of a worker does to queue,
  limiter and clock; the Redis queue object keeps a history variable with what arrived and what was
  delivered, and what other clients do during a call is part of the call.
* Steps that would panic in the source, index a slot that does not exist, or send a batch that does not
  exist set a `crashed` flag, which is proved never to be set.

What a reader may not expect:

* The limit is not strict. A direct push looks at the window before it is recorded; the push of a batch
  does not. So for RateMax, or any bound above it, the windows of a key stay within the bound exactly
  if no batch of the key is recorded while the window then ending is full up to the bound. A window of
  length RatePer may hold RateMax + 2 recorded pushes, and a run of the pump reaches it for every
  positive RateMax and nonnegative RatePer. RateMax + 1 holds if no worker pushes for a key between the
  popping and the recording of that key's batch.
* After all workers are gone the squasher ends, in every run that lets it move, if and only if it is
  awake or has a batch stored; otherwise it waits for a signal that nobody sends. The bad case is
  reachable.
* A batch's due time holds back newer messages only until it has passed. If the squasher is slow to
  poll, newer messages are then pushed directly, and the next one squashed moves the due time on. This
  can happen any number of times.
* The comments on the Redis feedback store's `Pop` and `Peek` promise oldest entries first. The code
  returns the oldest entries, but newest first among them. The model follows the code.
* With a limit that is not positive the memory store gives everything and the Redis store 100 entries.
* A Redis feedback `Pop` of k can lose entries, because others may push and remove entries between its
  two commands. Of n entries, with j arriving and c removed in between, nothing is lost exactly if
  c = n + j, or j = 0 and n <= k, or c = 0 and n >= k. The oldest min(c, min(k, n)) entries are then
  given to both.
* Telegram batches are keyed by chat only, so a batch may mix methods; such a batch cannot be squashed.

## Model

| member | source | states |
|---|---|---|
| Window.KeptMembers | internal/services/squasher.go:48-58 | pruning invents no push, keeps order, and keeps only pushes within RatePer of a reading |
| Window.KeptKeepsRecent | internal/services/squasher.go:48-58 | pruning loses no push that a window ending at or after the last reading still sees |
| Limiter.DirectKeepsRate | internal/services/squasher.go:75-80 | a direct push keeps agreement with the history, the window bound, and the room and the blocking that a stored batch relies on |
| Limiter.SquashKeepsRate | internal/services/squasher.go:83-98 | squashing sets a due time before which the window stays full and after which it has room for the batch |
| Limiter.PopKeepsRate | internal/services/squasher.go:120-125 | a due batch that is popped but not recorded still fits the bound |
| Limiter.RecordKeepsRate | internal/services/squasher.go:163-167 | recording a batch's push turns the in-flight batch into a window entry without exceeding the bound |
| LimiterRuns.WindowBound | internal/services/squasher.go:71-167 | in every run every closed window of length RatePer holds at most RateMax + 2 recorded pushes of a key |
| LimiterRuns.PromptWindowBound | internal/services/squasher.go:122-167 | the bound is RateMax + 1 if no direct push of the key overtakes its popped batch |
| LimiterExact.BoundHoldsExactly | internal/services/squasher.go:75-80 | for every bound from RateMax on, the windows of a key stay within it in a run if and only if no batch of the key is recorded while the window then ending is full up to the bound |
| LimiterRuns.FlushSeesHistory | internal/services/squasher.go:44-63 | in every run pruning answers for the full history: exactly the window when read at one instant, and between the windows of its first and last reading otherwise |
| LimiterRuns.ArrivalJoinsBatch | internal/services/squasher.go:75-98 | while the clock has not passed a batch's due time, a message for its key joins it at the end and its due time stays |
| LimiterRuns.GatedUntilDue | internal/services/squasher.go:71-98 | until the clock passes due a stored batch stays and only grows, and the key records at most a batch popped earlier |
| LimiterRuns.SquashedInOrder | internal/services/squasher.go:83-98 | the messages squashed for a key are, in order and once each, those sent, those popped and those stored |
| LimiterClients.PrepareIs | internal/services/squasher.go:75-98 | for a message of any queue: when it is pushed directly, when it panics, and otherwise exactly which batch it joins or opens, behind which messages, with what due time, queue and client |
| LimiterClients.SquashedBatch | internal/services/squasher.go:83-97 | a squash that opens a batch stores the arriving message's client, and one that joins a batch keeps the batch's client and adds the message at the end |
| LimiterDue.DueOnlyAdvances | internal/services/squasher.go:94-96 | in every run a stored batch leaves only by a pop, and its due time never moves back; it moves exactly when a message joins and every push that fixed it has been dropped from the window, which is after it has passed |
| SystemPostpones.PostponedWithoutEnd | internal/services/squasher.go:75-98 | for every n a run of the pump postpones a stored batch by n windows and more while n times RateMax newer messages for its key are pushed directly |
| LimiterRuns.StepKeepsLimit | internal/services/squasher.go:71-99 | every event keeps the limiter's invariant, and with one queue the mixed-queue panic is unreachable |
| Squashing.Squasher.FlushAndGetRate | internal/services/squasher.go:44-63 | the loop prunes the key's list and reports the number of pushes kept and the oldest of them |
| Squashing.Squasher.RecordPushNow | internal/services/squasher.go:65-69 | one push is appended to the key's list |
| Squashing.Squasher.PrepareToPush | internal/services/squasher.go:71-99 | the decision and the new maps are those of the limiter's arrival event, which keeps the invariant and never panics for the pump's own queue; squashing wakes a waiting squasher |
| Squashing.Squasher.FindMinDue | internal/services/squasher.go:112-119 | whatever the order in which the map is visited, the batch found is well formed and no other is due before it |
| Squashing.Squasher.PollBatch | internal/services/squasher.go:101-135 | waits, stops, naps no longer than the first due time, or, if and only if one is due, hands out a real, nonempty batch that is due first; a pass after a wake-up never finds the batches gone |
| Squashing.Squasher.RecordBatch | internal/services/squasher.go:163-167 | the locked part of sending is the limiter's record event |
| Squashing.Squasher.RequestShutdown | internal/services/squasher.go:137-142 | the squasher is told to stop, and woken if it waits |
| SlotQueue.EnqueueKeepsWellFormed | internal/queue/memory/queue.go:21-41 | a new message gets a slot that points back at it and disturbs no other message |
| SlotQueue.RemoveKeepsWellFormed | internal/queue/memory/queue.go:51-57 | clearing the slot of a message that is there removes that message and no other |
| SlotQueue.SlotEconomy | internal/queue/memory/queue.go:21-57 | from an empty queue the number of slots is exactly the largest number of messages ever live at once |
| MemoryQueues.MemoryQueue.Place | internal/queue/memory/queue.go:27-37 | a record goes to the lowest free slot, or to a new one if none is free |
| MemoryQueues.MemoryQueue.Queue | internal/queue/memory/queue.go:21-41 | a fresh message is added, not pending, and the rest of the state stays |
| MemoryQueues.MemoryQueue.GetNextMessage | internal/queue/memory/queue.go:68-77 | the lowest slot with a message that is not pending gives its message, now pending; null exactly if there is none |
| MemoryQueues.MemoryQueue.Get | internal/queue/memory/queue.go:79-94 | gives up exactly when cancelled or shut down, waits exactly when nothing is available, otherwise takes a message |
| MemoryQueues.MemoryQueue.Remove | internal/queue/memory/queue.go:51-57 | the slot the message names is cleared and nothing else changes |
| MemoryQueues.MemoryQueue.Requeue | internal/queue/memory/queue.go:59-66 | the message is no longer pending and nothing else changes |
| MemoryQueues.MemoryQueue.Shutdown | internal/queue/memory/queue.go:43-49 | the queue is shut down and nothing else changes |
| SystemInvariant.StepKeepsInv | internal/services/pump.go:70-109 | every step of every worker, client and squasher keeps ownership, the limiter's invariant and the batches' contents |
| SystemInvariant.DropKeeps | internal/services/pump.go:83-91 | a worker removes its own message and no other |
| SystemInvariant.SquashKeeps | internal/services/squasher.go:83-98 | a held message moves into exactly one batch and stays pending in its slot |
| SystemInvariant.PopKeeps | internal/services/squasher.go:120-125 | popping moves exactly the batch's messages to the squasher |
| SystemInvariant.RemoveNextKeeps | internal/services/squasher.go:177-181 | the squasher removes the messages of its batch one by one, each from its own slot |
| SystemTheorems.OnePlace | internal/services/pump.go:70-109 | in every run each message is in exactly one place, pending just when it is held or batched, and listed in no batch twice |
| SystemTheorems.RemovalIsExact | internal/queue/memory/queue.go:51-57 | in every run a removal hits the slot that still holds that very pending message, and no step changes the slot of another |
| SystemTheorems.NeverCrashes | internal/services/squasher.go:84-87 | no run indexes a missing slot, panics on mixed queues, or sends a batch that does not exist |
| SystemTheorems.BatchesAreConversions | internal/services/squasher.go:92-96 | every stored or popped batch pairs each queued message with its own conversion, under the message's squash key and for the pump's queue |
| SystemTheorems.BatchesHaveOpenersClient | internal/services/squasher.go:88-91 | in every run every stored or popped batch carries the client of the worker that squashed its first message, which found no batch for the key |
| SystemTheorems.GuardsExcludeNothing | internal/services/pump.go:70-109 | the conditions under which the model's steps are defined always hold, so no run of the source is left out by them |
| SystemTheorems.PumpSlotEconomy | internal/queue/memory/queue.go:21-57 | in every run of the pump the queue has as many slots as messages were ever live at once |
| SystemTheorems.RunProjects | internal/services/squasher.go:71-167 | every run of the pump is a run of the limiter, event by event |
| SystemTheorems.PumpWindowBound | internal/services/squasher.go:71-167 | the RateMax + 2 bound for every run of the whole pump |
| SystemTheorems.PumpPromptWindowBound | internal/services/squasher.go:122-167 | the RateMax + 1 bound for every run of the whole pump in which no push overtakes a popped batch |
| SystemTheorems.PumpBoundHoldsExactly | internal/services/squasher.go:163-167 | the same exact condition for every run of the whole pump |
| SystemTight.WindowBoundReached | internal/services/squasher.go:122-167 | for every positive RateMax, nonnegative RatePer and key that some message has, a run of the pump records RateMax + 2 pushes of the key at one instant |
| SystemTheorems.PumpGatedUntilDue | internal/services/squasher.go:75-98 | from every reachable state, until a stored batch is due it only grows, and recorded pushes and popped batch of its key keep their total, so no message for the key is pushed directly |
| SystemTheorems.ShutdownIsSafe | internal/queue/memory/queue.go:43-49 | after Shutdown no worker is ever blocked, waiting messages stay waiting, and each worker disposes of at most the one message it held |
| SystemWakeups.NoLostWakeup | internal/queue/memory/queue.go:21-41 | in every run, while a worker is blocked, the available messages are covered by undelivered signals and woken workers |
| SystemDrains.NoDeadlock | internal/queue/memory/queue.go:79-94 | while a message is in the queue of a running pump, some run without clients, shutdown or failures brings the messages nearer to removal |
| SystemDrains.CanDrain | internal/services/pump.go:76-108 | from every reachable state of a running pump some run without clients, shutdown or failures leaves no message in the queue |
| SystemProgress.BoundedWork | internal/services/pump.go:76-108 | the moves of messages in a run number at most four per message queued and two per temporary failure, less what is left to do |
| SystemWork.AllWorkBounded | internal/services/pump.go:70-109 | all that workers, signals and squasher do in a run, blocking, waking, backing off and exiting included, is at most four steps per worker, fifteen per message queued and ten per temporary failure; only polls that hand out nothing are not counted |
| SquasherStop.StopsExactlyIfItWillNotice | internal/services/squasher.go:104-111 | once all workers are gone the squasher stops, in every run with the moves it needs, if and only if it is awake, has a batch, or has stopped; otherwise it stops in no run |
| SquasherStop.WillNoticeStops | internal/services/squasher.go:104-111 | a squasher asked to stop that is awake or has a batch stops in every run with the moves it needs, whatever workers still do, and it can make those moves |
| SquasherStop.RequestStopsSleeper | internal/services/squasher.go:137-142 | in every run a stop request that finds the squasher waiting wakes it, it can move, and its next move stops it |
| SquasherStop.MayNeverStop | internal/services/squasher.go:104-107 | a run with one worker and no messages after which the squasher never ends |
| Pumps.Pump.RemoveFromQueue | internal/services/pump.go:111-115 | the message in hand leaves the queue, and only it |
| Pumps.Pump.RequeueMessage | internal/services/pump.go:96-100 | the message in hand waits again and no message leaves the queue |
| Pumps.Pump.Fetch | internal/services/pump.go:77-81 | gives up exactly when cancelled or shut down, blocks exactly when nothing is available, otherwise gives the first available message, which is then in hand and alone there |
| Pumps.Pump.Push | internal/services/pump.go:59-68 | the message goes into a batch exactly if there is a limiter and its arrival event squashes it, with any readings of the clock, and otherwise stays in hand |
| Pumps.Pump.Dispose | internal/services/pump.go:82-100 | a message that converts is put to the limiter, and the new queue, limiter and round are those of the specification; it stays in the queue exactly if it was squashed or failed temporarily, and is in a batch exactly if squashed |
| Pumps.Pump.ServeTurn | internal/services/pump.go:76-108 | a round gets nothing exactly when cancelled, shut down or nothing is available, otherwise it disposes of the first available message; it ends with nothing in hand and only its own message may leave the queue |
| Pumps.Pump.ServeClient | internal/services/pump.go:70-109 | the rounds, the queue and the limiter are those of the specification, no message leaks, and the worker backs off with the streak of temporary failures before each one |
| Rounds.RoundsFollowTurns | internal/services/pump.go:76-108 | the loop goes on until a round that gets nothing, and each round disposes of its message as its turn says |
| Rounds.SleepsCountFailures | internal/services/pump.go:102-104 | a worker backs off once for each temporary failure |
| Rounds.BackOffCounts | internal/services/pump.go:102-107 | the counts it backs off with start at zero and grow by one until a push ends otherwise |
| Pumps.Pump.RunWorker | internal/services/pump.go:145-150 | when a worker's loop ends the squasher is asked to stop and is not left waiting |
| Pumps.Pump.SendBatch | internal/services/squasher.go:163-182 | however the send is answered, exactly the batch's messages leave the queue |
| Pumps.Pump.ServeSquasher | internal/services/squasher.go:151-161 | queue, limiter, clock and squasher are those of the specified pass: if no stop was requested and a batch is due, one that is due first is popped and recorded and exactly its messages leave the queue; otherwise queue and limiter stay |
| SystemRounds.TurnIsRun | internal/services/pump.go:76-108 | on matching states a worker's round, as the objects perform it, is a run of that worker's events in the system, and the states match again |
| SystemRounds.PassIsRun | internal/services/squasher.go:151-182 | on matching states a pass of the squasher is a run of its own events in the system: a poll and, if it takes a batch, recording it and removing its messages one by one |
| DigestText.TrimSpaceTrims | internal/services/telegram/message.go:57 | a text is white space, its trimmed form, and white space, and nothing else is trimmed and leaves only white space on both sides; the trimmed form is empty exactly if the text is all white space |
| DigestText.DigestStaged | internal/services/telegram/message.go:56-70 | joining a join of the first texts with the rest is joining all texts |
| DigestText.DigestRoundTrip | internal/services/telegram/message.go:56-70 | splitting a digest at blank lines gives back its pieces in order if and only if there is a piece and none contains a blank line |
| Telegram.ConcatText | internal/services/telegram/message.go:56-70 | a text that is all white space adds nothing; any other adds its trimmed form, after what it takes to set it off by a blank line |
| Telegram.ConcatDigests | internal/services/telegram/message.go:56-70 | adding texts one by one builds the join of the nonempty trimmed texts, and the builder never ends in a newline, so two branches are never taken |
| Telegram.SquashMessages | internal/services/telegram/message.go:72-96 | succeeds exactly if there is a message and all are of one method and chat; the result has the first message's method, chat and photo, the joins of all texts and all captions, and the payload that encodes just that; the error is that of the first message that differs, the method before the chat |
| Telegram.StagedSquash | internal/services/telegram/message.go:72-96 | for every split, squashing the squashed front with the rest equals squashing all at once, errors included |
| Telegram.BatchSquashes | internal/services/telegram/message.go:27-30 | a batch for one chat can be squashed if and only if its methods are equal |
| Telegram.SquashedTextSplits | internal/services/telegram/message.go:72-96 | the texts can be read back from the squashed message, and so can the captions, if and only if there is one and none contains a blank line |
| RedisList.TailAndRest | internal/queue/redis/feedback.go:70-71 | the range -k..-1 is the last k entries and the trim to 0..-(k+1) leaves exactly the others |
| Feedback.MemoryStore.Push | internal/queue/memory/feedback.go:25-30 | the entry is added behind the others |
| Feedback.MemoryStore.Pop | internal/queue/memory/feedback.go:33-51 | the oldest entries up to the limit are returned and removed, all of them if the limit is not positive; what is returned and what is left are what there was |
| Feedback.MemoryStore.Peek | internal/queue/memory/feedback.go:54-71 | the same entries are returned and nothing is removed |
| Feedback.RedisStore.Push | internal/queue/redis/feedback.go:54-60 | the entry becomes the head of the list |
| Feedback.RedisStore.Pop | internal/queue/redis/feedback.go:64-93 | returns what can be decoded of the tail at the first command, and leaves what the second command leaves after other clients' pushes and removals |
| Feedback.RedisStore.Peek | internal/queue/redis/feedback.go:97-118 | returns what can be decoded of the tail and leaves the list |
| Feedback.DecodedAround | internal/queue/redis/feedback.go:80-90 | an item that cannot be decoded is left out, and every other is returned in its place |
| Feedback.PopLosesExactly | internal/queue/redis/feedback.go:69-72 | of n entries, with j arriving and c removed between the commands in any interleaving, every entry is left, got by the pop, removed by others, or lost; how many are lost and which, none if and only if c = n+j, or j = 0 and n <= k, or c = 0 and n >= k |
| Feedback.PopLoses | internal/queue/redis/feedback.go:69-72 | if others only push, exactly the oldest min(k, n+j) - min(k, n) of their pushes are lost; none if and only if n >= k or j = 0 |
| Feedback.CollidingPopsLose | internal/queue/redis/feedback.go:69-72 | two pops whose reads precede both trims, with pushes before and between the trims, return the same entries, and lose none if and only if nothing was pushed and the larger covers all |
| Feedback.StoresAgree | internal/queue/redis/feedback.go:64-118 | on mirrored stores an operation answers alike, in reverse order, and keeps them mirrored if and only if the limit is positive or at most 100 entries are held |
| Feedback.RunsAgree | internal/queue/memory/feedback.go:25-71 | over every run with positive limits both stores pop the same entries, and what was popped followed by what is left is what was pushed |
| RedisQueues.RedisQueue.Queue | internal/queue/redis/redis.go:86-90 | the message becomes the head of the list, before all that was there, and the last to have arrived |
| RedisQueues.RedisQueue.Pass | internal/queue/redis/redis.go:96-185 | one pass is cancelled, fails, or gives the oldest message it is served, exactly in the cases listed, and otherwise goes on; after a connection error it has slept the delay and increased it |
| RedisQueues.RedisQueue.Get | internal/queue/redis/redis.go:92-186 | over any errors, retries and activity of others, consumers included, the first pass that must end the loop ends it, and a served pass that finds a message always does, giving the oldest; it has slept once after each connection error, for the right times |
| RedisQueues.GetDeliversOldest | internal/queue/redis/redis.go:92-186 | a body returned is the one that came first, of what had arrived and what others brought meanwhile, among those not delivered before |
| RedisQueues.CallsAreFifo | internal/queue/redis/redis.go:86-209 | over every sequence of calls, what was listed at first and then what the calls brought, requeued bodies again, is what was delivered and then what is listed; for the only consumer what was delivered is what the Gets returned, in order |
| RedisQueues.SleepsAreRight | internal/queue/redis/redis.go:144-154 | a loop that goes on sleeps once after each connection error: the initial delay first, and then half as much again as before up to the maximum, or the initial delay if a good health check or an empty answer came in between |
| RedisQueues.SleepsBounded | internal/queue/redis/redis.go:144-154 | there is a sleep for each connection error, and each lies between the initial and the maximal delay |
| RedisQueues.RedisQueue.Requeue | internal/queue/redis/redis.go:206-209 | a requeued message goes behind all others, arriving again, and is no longer held |
| RedisQueues.RedisQueue.Remove | internal/queue/redis/redis.go:201-204 | the message is no longer held; list, arrivals and deliveries stay, it having left the list when it was popped |
| AbstractQueue.MemorySimulates | internal/queue/memory/queue.go:21-94 | every operation of the in-memory queue adds, takes, returns or drops one body of the abstract queue |
| AbstractQueue.RedisSimulates | internal/queue/redis/redis.go:86-209 | every call of the Redis queue, a Get over all its passes included, is a run of the same abstract queue |

## Left out

- Pumps.Pump.ServeClient: one worker alone, without steps of others between its own; each of its rounds is a run of the system, where interleavings are proved.
- Feedback.PopLosesExactly: other clients push at the head and remove at the tail; commands that touch other positions of the list are not modelled.
- SquasherStop.StopsExactlyIfItWillNotice: speaks of runs that let the squasher move often enough; that it is scheduled is not modelled.
- Fair scheduling: that every message can be removed is proved, and that moves are bounded, not that a scheduler lets it happen.
- Starting and waiting in `Serve`: client creation, its failure, and the wait group.
- The durations of a worker's backoff; only the failure counts passed to it are modelled.
- Push statuses other than the three declared ones.
- Wrap-around of durations and of integers, and times before the zero time.
- HTTP handlers, metrics, flags, logging, and the sends of all services, which are foreign calls.
- E-mail digests, whose substance is in libraries that are not part of this model.
- JSON: a message's conversion is a function that may fail, the encoded Telegram payload is a function of its fields, and list items either decode or do not.
- `Len` and `Close` of the feedback stores.
- Redis itself: connections, time-outs and the matching of error texts are an oracle of replies. A message popped by a server whose reply is lost is not modelled.
- Invalid UTF-8 in texts, which decoding has already replaced.
