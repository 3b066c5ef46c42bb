# Sky, SuperStorage, EmojiArt and Blabber bookkeeping in Dafny

This project models the state-keeping core of the sample apps of *Modern
Concurrency in Swift*, and proves what that core promises.

## Sky scan system

Sky is the peer-to-peer scan system. The model covers:

- the peer registry (`PeerList`, and the locked `actors` dictionary of the starter `BonjourActorSystem`);
- the invocation record codec: `InvocationMessage`, the encoder that appends one blob per argument, and the decoder that reads them back front first;
- the last-writer-wins result slot of `BonjourResultHandler`;
- the per-peer load counters of `ScanActor` and `ScanSystem`;
- `firstAvailableSystem`'s selection of a peer with fewer than four tasks;
- the four `ScanModel` schedulers. Two keep a sliding window of four workers: the task-group chapter's model and the distributed chapter's starter. Two dispatch everything up front and retry failures on the local system: the distributed chapter's final model and the advanced-actor chapter's model;
- the fault injector `UnreliableAPI`.

## Helpers from other chapters

- SuperStorage's two `ByteAccumulator`s, its download list and its multipart split arithmetic;
- EmojiArt's `ImageLoader` cache and `DiskStorage.fileName(for:)`;
- Blabber's countdown, address resolution, `say` and chat line rules.

## How the Swift is modelled

Actors and `@MainActor` classes become Dafny classes whose methods run one at a time. Values become datatypes.

JSON encoding and decoding is a tagged datatype `Blob`, so decoding an encoded value gives it back by construction. Distributed-actor handles are opaque values `Handle(id, actorType, instance)`.

Anything the app waits for is an input:

- network replies;
- the counts that remote peers report;
- the wall-clock second;
- the order in which task-group workers settle.

A run of a task group consumes a sequence of such events. Running out of events stands for a group that has not yet drained.

Swift's truncating `/` and `%` are written out in `Common.SwiftDiv` and `Common.SwiftRem`.

The SuperStorage list operations are the same in the beginner starter, the beginner challenge and the async-sequence final versions, and are modelled once. The Blabber rules are the same in the intermediate-async-await final and the task-and-continuation starter. The only difference is that the latter's `shareLocation` first checks the location authorization.

The model follows the code in three places a reader might not expect:

- the load counters are not kept non-negative;
- the distributed chapter's final `runAllTasks` resets `completed` to 0, while the advanced-actor one keeps it;
- the rate uses Swift's truncating integer division.

## Model

| member | source | states |
|---|---|---|
| PeerRegistry.PeerList.constructor | 10-actors-in-a-distributed-system/projects/final/Sky/BonjourActorSystem/PeerList.swift:14-16 | The registry starts empty, and every entry is filed under its own actor id. |
| PeerRegistry.PeerList.Ids | 10-actors-in-a-distributed-system/projects/final/Sky/BonjourActorSystem/PeerList.swift:18 | The ids are exactly the registered keys: each one is registered, none is missing or repeated, and nothing changes. |
| PeerRegistry.PeerList.Count | 10-actors-in-a-distributed-system/projects/final/Sky/BonjourActorSystem/PeerList.swift:20-24 | The count is the number of distinct registered ids. |
| PeerRegistry.PeerList.Get | 10-actors-in-a-distributed-system/projects/final/Sky/BonjourActorSystem/PeerList.swift:26-30 | Gives the handle exactly when the id is registered, and then the registered handle. |
| PeerRegistry.PeerList.Add | 10-actors-in-a-distributed-system/projects/final/Sky/BonjourActorSystem/PeerList.swift:32-36 | The actor is filed under its id, replacing any earlier entry. No other id changes, and the keys gain exactly that id. |
| PeerRegistry.PeerList.Remove | 10-actors-in-a-distributed-system/projects/final/Sky/BonjourActorSystem/PeerList.swift:38-42 | The id is gone and no other id changes; removing an unknown id changes nothing. |
| StarterActorSystem.BonjourActorSystem.constructor | 10-actors-in-a-distributed-system/projects/starter/Sky/BonjourActorSystem/BonjourActorSystem.swift:36-47 | No actors; the published count is 0 and the connected names are empty. |
| StarterActorSystem.BonjourActorSystem.WithActorsWriteBack | 10-actors-in-a-distributed-system/projects/starter/Sky/BonjourActorSystem/BonjourActorSystem.swift:24-33 | After every write to `actors`, the published `actorCount` is its size and `connectedActors` is its keys without `localName`. |
| StarterActorSystem.BonjourActorSystem.Resolve | 10-actors-in-a-distributed-system/projects/starter/Sky/BonjourActorSystem/BonjourActorSystem.swift:49-51 | Finds the entry only when its type matches; the map is unchanged and the published values stay consistent. |
| StarterActorSystem.BonjourActorSystem.ResignID | 10-actors-in-a-distributed-system/projects/starter/Sky/BonjourActorSystem/BonjourActorSystem.swift:57-59 | Removes that id; an unknown id leaves the map as it was. |
| StarterActorSystem.BonjourActorSystem.ActorReady | 10-actors-in-a-distributed-system/projects/starter/Sky/BonjourActorSystem/BonjourActorSystem.swift:61-63 | Stores the actor under its id, replacing any previous one. |
| StarterActorSystem.BonjourActorSystem.DidReceiveInvocation | 10-actors-in-a-distributed-system/projects/starter/Sky/BonjourActorSystem/BonjourActorSystem.swift:111-135 | An invocation is dropped exactly when nothing is registered under `localName`; otherwise it is handled as in `RemoteCalls.ReceiveInvocation`. |
| DistributedActorSystem.AssignID | 10-actors-in-a-distributed-system/projects/final/Sky/BonjourActorSystem/BonjourActorSystem.swift:44-46 | Every actor, whatever its type, gets the local display name as its id. |
| DistributedActorSystem.BonjourActorSystem.constructor | 10-actors-in-a-distributed-system/projects/final/Sky/BonjourActorSystem/BonjourActorSystem.swift:32-38 | The local ScanActor is created with count 0 and is the only entry in `peers`, under the display name. |
| DistributedActorSystem.BonjourActorSystem.Resolve | 10-actors-in-a-distributed-system/projects/final/Sky/BonjourActorSystem/BonjourActorSystem.swift:40-42 | This is `peers.get` with a type test: it finds the entry exactly when one of that type is registered. |
| DistributedActorSystem.BonjourActorSystem.ResignID | 10-actors-in-a-distributed-system/projects/final/Sky/BonjourActorSystem/BonjourActorSystem.swift:48-50 | This is `peers.remove`. |
| DistributedActorSystem.BonjourActorSystem.ActorReady | 10-actors-in-a-distributed-system/projects/final/Sky/BonjourActorSystem/BonjourActorSystem.swift:52-54 | This is `peers.add`. |
| DistributedActorSystem.BonjourActorSystem.DidReceiveInvocation | 10-actors-in-a-distributed-system/projects/final/Sky/BonjourActorSystem/BonjourActorSystem.swift:108-137 | An invocation is dropped exactly when `localName` is not in `peers`. A reply carries the invocation id. |
| DistributedActorSystem.BonjourActorSystem.ScanPass | 10-actors-in-a-distributed-system/projects/final/Sky/BonjourActorSystem/BonjourActorSystem.swift:144-164 | One pass over `peers.ids` picks the first eligible id: registered, count readable, and count below 4. It picks nothing only when no id is eligible. |
| DistributedActorSystem.BonjourActorSystem.FirstAvailableSystem | 10-actors-in-a-distributed-system/projects/final/Sky/BonjourActorSystem/BonjourActorSystem.swift:142-168 | The pick comes from the first pass with an eligible peer, and is the first eligible id of that pass in `peers.ids` order; every id is scanned. Picking the local actor commits it, raising its count by one from below 4; any other outcome leaves the local count alone. With no pick, no peer was eligible in any pass. |
| RemoteCalls.PrepareInvocation | 10-actors-in-a-distributed-system/projects/final/Sky/BonjourActorSystem/BonjourActorSystem.swift:77-78 | The sent message carries the target identifier as its call signature, and is otherwise the recorded one. |
| RemoteCalls.RemoteCallResult | 10-actors-in-a-distributed-system/projects/final/Sky/BonjourActorSystem/BonjourActorSystem.swift:80-84 | A transport error is rethrown and a missing result fails with "Result not found in response". Otherwise the result is decoded at the return type, and a value of that type comes back. |
| RemoteCalls.RemoteCallVoidResult | 10-actors-in-a-distributed-system/projects/final/Sky/BonjourActorSystem/BonjourActorSystem.swift:100-103 | Succeeds exactly when the send succeeds, and ignores the result. |
| RemoteCalls.ReceiveInvocation | 10-actors-in-a-distributed-system/projects/final/Sky/BonjourActorSystem/BonjourActorSystem.swift:108-137 | Dropped exactly when the recipient is missing. A reply happens exactly when execution succeeds and the slot is not a failure, and it carries the invocation id and the slot's data. A failed execution sends nothing. |
| RemoteCalls.ReturnValueReachesCaller | 10-actors-in-a-distributed-system/projects/final/Sky/BonjourActorSystem/BonjourActorSystem.swift:123-130 | End to end: an encodable return value reaches the caller's `remoteCall` unchanged, under the invocation id. A void return is rejected by `remoteCall` and accepted by `remoteCallVoid`, and a throw sends no reply. |
| Invocation.DefaultMessage | 10-actors-in-a-distributed-system/projects/starter/Sky/BonjourActorSystem/InvocationMessage.swift:10-15 | A fresh message has its own id, an empty signature, no arguments and empty type names. |
| Invocation.TypeWithName | 10-actors-in-a-distributed-system/projects/starter/Sky/BonjourActorSystem/InvocationMessage.swift:17-23 | "Swift.Int" is Int, "Foundation.Data" is Data, and every other name is nil. |
| Invocation.TypeNameRoundTrip | 10-actors-in-a-distributed-system/projects/starter/Sky/BonjourActorSystem/BonjourInvocationEncoder.swift:31-37 | A recorded type name resolves back to the type exactly for Int and Data. |
| Invocation.EncodeValue | 10-actors-in-a-distributed-system/projects/starter/Sky/BonjourActorSystem/BonjourInvocationEncoder.swift:42 | Encoding succeeds exactly for encodable values. |
| Invocation.DecodeValue | 10-actors-in-a-distributed-system/projects/final/Sky/BonjourActorSystem/BonjourInvocationDecoder.swift:26 | A decoded value has the type it was asked for. |
| Invocation.ValueRoundTrip | 10-actors-in-a-distributed-system/projects/final/Sky/BonjourActorSystem/BonjourInvocationDecoder.swift:25-27 | Decoding an encoded value at its own type gives the value back. |
| Invocation.DecodeMessage | 10-actors-in-a-distributed-system/projects/final/Sky/BonjourActorSystem/BonjourInvocationDecoder.swift:17-21 | Only a message blob decodes to a message. |
| Invocation.InvocationEncoder.constructor | 10-actors-in-a-distributed-system/projects/starter/Sky/BonjourActorSystem/BonjourInvocationEncoder.swift:15-23 | The encoder holds a default message. |
| Invocation.InvocationEncoder.SetCallSignature | 10-actors-in-a-distributed-system/projects/starter/Sky/BonjourActorSystem/BonjourInvocationEncoder.swift:25-27 | Changes only the call signature. |
| Invocation.InvocationEncoder.RecordGenericSubstitution | 10-actors-in-a-distributed-system/projects/starter/Sky/BonjourActorSystem/BonjourInvocationEncoder.swift:29 | Changes nothing. |
| Invocation.InvocationEncoder.RecordErrorType | 10-actors-in-a-distributed-system/projects/starter/Sky/BonjourActorSystem/BonjourInvocationEncoder.swift:31-33 | Overwrites only the error type name, with the reflecting name. |
| Invocation.InvocationEncoder.RecordReturnType | 10-actors-in-a-distributed-system/projects/starter/Sky/BonjourActorSystem/BonjourInvocationEncoder.swift:35-37 | Overwrites only the return type name. |
| Invocation.InvocationEncoder.RecordArgument | 10-actors-in-a-distributed-system/projects/starter/Sky/BonjourActorSystem/BonjourInvocationEncoder.swift:39-43 | An encodable argument appends exactly one blob at the end. Otherwise the call throws and the message is unchanged. |
| Invocation.InvocationEncoder.DoneRecording | 10-actors-in-a-distributed-system/projects/starter/Sky/BonjourActorSystem/BonjourInvocationEncoder.swift:45 | Changes nothing. |
| Invocation.InvocationEncoder.Data | 10-actors-in-a-distributed-system/projects/starter/Sky/BonjourActorSystem/BonjourInvocationEncoder.swift:17-21 | The data decodes back to the current message. |
| Invocation.InvocationDecoder.constructor | 10-actors-in-a-distributed-system/projects/final/Sky/BonjourActorSystem/BonjourInvocationDecoder.swift:14-21 | Data that decodes gives that message; otherwise the default message, with a fresh id. |
| Invocation.InvocationDecoder.DecodeGenericSubstitutions | 10-actors-in-a-distributed-system/projects/final/Sky/BonjourActorSystem/BonjourInvocationDecoder.swift:23 | Always empty. |
| Invocation.InvocationDecoder.DecodeNextArgument | 10-actors-in-a-distributed-system/projects/final/Sky/BonjourActorSystem/BonjourInvocationDecoder.swift:25-27 | Decodes the front blob and removes it, so the arguments shrink by exactly one and come out in recording order. |
| Invocation.InvocationDecoder.DecodeErrorType | 10-actors-in-a-distributed-system/projects/final/Sky/BonjourActorSystem/BonjourInvocationDecoder.swift:29-31 | Goes through `typeWithName` and consumes nothing. |
| Invocation.InvocationDecoder.DecodeReturnType | 10-actors-in-a-distributed-system/projects/final/Sky/BonjourActorSystem/BonjourInvocationDecoder.swift:33-35 | Goes through `typeWithName` and consumes nothing. |
| Invocation.RoundTrip | 10-actors-in-a-distributed-system/projects/final/Sky/BonjourActorSystem/BonjourInvocationDecoder.swift:25-27 | Encoding a signature and arguments and decoding them gives the same signature and the same arguments in order, with none left over. |
| ResultHandling.SlotAfter | 10-actors-in-a-distributed-system/projects/final/Sky/BonjourActorSystem/BonjourResultHandler.swift:14-25 | A throw stores the failure. An encodable return stores its encoding, an unencodable one an encoding failure, and a void return success with no data. |
| ResultHandling.ResultHandler.constructor | 10-actors-in-a-distributed-system/projects/final/Sky/BonjourActorSystem/BonjourResultHandler.swift:12 | The slot starts nil. |
| ResultHandling.ResultHandler.OnThrow | 10-actors-in-a-distributed-system/projects/final/Sky/BonjourActorSystem/BonjourResultHandler.swift:14-16 | The slot holds `.failure(e)`. |
| ResultHandling.ResultHandler.OnReturn | 10-actors-in-a-distributed-system/projects/final/Sky/BonjourActorSystem/BonjourResultHandler.swift:19-21 | The slot holds the encoding, or the encoding failure. |
| ResultHandling.ResultHandler.OnReturnVoid | 10-actors-in-a-distributed-system/projects/final/Sky/BonjourActorSystem/BonjourResultHandler.swift:23-25 | The slot holds `.success(nil)`. |
| ResultHandling.Replay | 10-actors-in-a-distributed-system/projects/final/Sky/BonjourActorSystem/BonjourResultHandler.swift:12-25 | After any series of calls the slot is what the last call wrote; it is nil after none. |
| ScanActors.ScanActor.constructor | 10-actors-in-a-distributed-system/projects/final/Sky/Tasks/ScanActor.swift:46-49 | The count starts at 0 and the name is kept. |
| ScanActors.ScanActor.Name | 10-actors-in-a-distributed-system/projects/final/Sky/Tasks/ScanActor.swift:39-44 | Returns the construction-time name. |
| ScanActors.ScanActor.Count | 10-actors-in-a-distributed-system/projects/final/Sky/Tasks/ScanActor.swift:51-54 | Returns `countValue` without changing it. |
| ScanActors.ScanActor.Commit | 10-actors-in-a-distributed-system/projects/final/Sky/Tasks/ScanActor.swift:56-59 | Raises the count by exactly 1. |
| ScanActors.ScanActor.Run | 10-actors-in-a-distributed-system/projects/final/Sky/Tasks/ScanActor.swift:61-67 | Lowers the count by exactly 1 whether the task succeeds or throws, and passes its result or error through. |
| ScanActors.LoadIsCommitsMinusRuns | 10-actors-in-a-distributed-system/projects/final/Sky/Tasks/ScanActor.swift:51-67 | After any history, the count is the start plus commits minus runs, and nothing keeps it at or above zero. |
| ScanActors.ReplayCalls | 10-actors-in-a-distributed-system/projects/final/Sky/Tasks/ScanActor.swift:51-67 | Replaying commits and runs on a real actor ends at commits minus runs. |
| ScanActors.ScanSystem.constructor | 10-advanced-actor/projects/final/Sky/Tasks/ScanSystem.swift:39-42 | The count starts at 0; a system built without a service is local. |
| ScanActors.ScanSystem.Commit | 10-advanced-actor/projects/final/Sky/Tasks/ScanSystem.swift:46-48 | Raises the count by exactly 1. |
| ScanActors.ScanSystem.Run | 10-advanced-actor/projects/final/Sky/Tasks/ScanSystem.swift:50-59 | Lowers the count by 1 on every exit. With a service the task goes to the peer named `name`; without one it runs locally. |
| ScanActors.RetriedWithoutCommit | 10-actors-in-a-distributed-system/projects/final/Sky/ScanModel.swift:157-160 | The calls the local actor sees for one task: its commit and run, then one run for each retry, with no commit. |
| ScanActors.RetriesWithoutCommitLoad | 10-actors-in-a-distributed-system/projects/final/Sky/ScanModel.swift:157-160 | Each commit-less retry leaves the load one lower. One failure on an idle actor ends at -1. |
| ScanActors.RetriedWithCommit | 10-actors-in-a-distributed-system/projects/final/Sky/ScanModel.swift:157-160 | The same history, but with a commit before every run. |
| ScanActors.RetriesWithCommitLoad | 10-actors-in-a-distributed-system/projects/final/Sky/ScanModel.swift:157-160 | With a commit per retry, the load ends where it started and never goes below it on the way. |
| UnreliableApi.UnreliableAPI.constructor | 10-advanced-actor/projects/final/Sky/Utility/Utility.swift:62 | The counter starts at 0. |
| UnreliableApi.UnreliableAPI.Action | 10-advanced-actor/projects/final/Sky/Utility/Utility.swift:64-70 | The counter goes up by one and is then tested. The call throws exactly when it is a multiple of `failingEvery`, and a throw resets the counter to 0. |
| UnreliableApi.CounterCountsUp | 10-advanced-actor/projects/final/Sky/Utility/Utility.swift:62-70 | From 0, each of the first n-1 calls raises the counter by one. |
| UnreliableApi.CounterBounded | 10-advanced-actor/projects/final/Sky/Utility/Utility.swift:62-70 | Between calls the counter stays in [0, n-1], and the next call throws exactly when it is n-1. |
| UnreliableApi.CounterPeriodic | 10-advanced-actor/projects/final/Sky/Utility/Utility.swift:62-70 | The counter repeats every n calls. |
| UnreliableApi.CallThrows | 10-advanced-actor/projects/final/Sky/Utility/Utility.swift:62-70 | Call number k+1 throws exactly when k+1 is a multiple of n: calls n, 2n, ... fail, and every call fails when n is 1. |
| Scheduling.RateUpdate | 07-concurrent-code-with-taskgroup/projects/final/Sky/ScanModel.swift:116-127 | The rate is recomputed only when the second changes: then `counted` restarts at 0 and `lastSec` becomes now. Otherwise only `counted` grows. The divisor is never zero, and a forward step gives a rate between 0 and the count. |
| Scheduling.RateAfterSnoc | 07-concurrent-code-with-taskgroup/projects/final/Sky/ScanModel.swift:116-127 | One more success applies exactly one more rate update. |
| Scheduling.RateAfterFacts | 07-concurrent-code-with-taskgroup/projects/final/Sky/ScanModel.swift:116-127 | After any successes, `lastSec` is the latest one's second and `counted` never exceeds the successes. |
| Scheduling.OkTimes | 07-concurrent-code-with-taskgroup/projects/final/Sky/ScanModel.swift:97-110 | Only successful workers reach `onTaskCompleted`. |
| Scheduling.RateStep | 07-concurrent-code-with-taskgroup/projects/final/Sky/ScanModel.swift:97-127 | A failed settle leaves the rate figures alone, and a success applies one update. |
| Scheduling.OkTimesSnoc | 07-concurrent-code-with-taskgroup/projects/final/Sky/ScanModel.swift:97-110 | A settle adds its second exactly when it succeeded. |
| SlidingWindow.InitialWindow | 07-concurrent-code-with-taskgroup/projects/final/Sky/ScanModel.swift:64-70 | Workers 0 to 3 start before any result arrives, whatever `total` is. |
| SlidingWindow.SettleAt | 07-concurrent-code-with-taskgroup/projects/final/Sky/ScanModel.swift:73-87 | Each result settles one worker, and lets worker `index` in while `index < total`. |
| SlidingWindow.InitialShape | 07-concurrent-code-with-taskgroup/projects/final/Sky/ScanModel.swift:64-70 | The four started workers satisfy the window invariant. |
| SlidingWindow.InitialOnceAt | 07-concurrent-code-with-taskgroup/projects/final/Sky/ScanModel.swift:64-70 | Numbers 0 to 3 are each in flight exactly once. |
| SlidingWindow.StepKeepsShape | 07-concurrent-code-with-taskgroup/projects/final/Sky/ScanModel.swift:73-87 | Every settle keeps the invariant: at most 4 in flight, and exactly 4 while numbers remain. Each started number is settled or in flight exactly once. |
| SlidingWindow.SettleOnceAt | 07-concurrent-code-with-taskgroup/projects/final/Sky/ScanModel.swift:73-87 | A settle moves one number from in flight to settled, and adds at most the next one. |
| SlidingWindow.DrainedWindow | 07-concurrent-code-with-taskgroup/projects/final/Sky/ScanModel.swift:64-87 | The group drains exactly after max(4, total) settles, and then each number in `0..<max(4,total)` has run exactly once. |
| TaskGroupScan.ScanModel.constructor | 07-concurrent-code-with-taskgroup/projects/final/Sky/ScanModel.swift:55-57 | All counters start at 0. |
| TaskGroupScan.ScanModel.OnScheduled | 07-concurrent-code-with-taskgroup/projects/final/Sky/ScanModel.swift:130-132 | `scheduled` goes up by one, and nothing else changes. |
| TaskGroupScan.ScanModel.OnTaskCompleted | 07-concurrent-code-with-taskgroup/projects/final/Sky/ScanModel.swift:116-127 | `completed` goes up and `scheduled` down by one, and the rate figures take one update for the second `now`. |
| TaskGroupScan.ScanModel.Settled | 07-concurrent-code-with-taskgroup/projects/final/Sky/ScanModel.swift:73-87 | One settle: only a success counts as completed and updates the rate. Starting the next worker schedules it. |
| TaskGroupScan.ScanModel.RunAllTasks | 07-concurrent-code-with-taskgroup/projects/final/Sky/ScanModel.swift:59-95 | A released model throws "The model failed". Otherwise numbers `0..<max(4,total)` each run once, failures are never retried, and `completed` counts the successes. At the end `scheduled` and `countPerSecond` are 0 and `completed` is kept. |
| TaskGroupScan.ScanModel.RunGroup | 07-concurrent-code-with-taskgroup/projects/final/Sky/ScanModel.swift:64-92 | The same run, once the model is known to be alive. |
| TaskGroupScan.ScanModel.StartBatch | 07-concurrent-code-with-taskgroup/projects/final/Sky/ScanModel.swift:64-70 | Starts workers 0 to 3 and schedules four. |
| TaskGroupScan.ScanModel.Turn | 07-concurrent-code-with-taskgroup/projects/final/Sky/ScanModel.swift:73-87 | One turn of the result loop keeps the window and the counters in step. |
| TaskGroupScan.ScanModel.ResultLoop | 07-concurrent-code-with-taskgroup/projects/final/Sky/ScanModel.swift:73-87 | The loop ends when the group drains or the events run out, with the invariant kept. |
| StarterScanModel.ScanModel.constructor | 10-actors-in-a-distributed-system/projects/starter/Sky/ScanModel.swift:58-62 | Creates the actor system; every published flag and counter starts at its default. |
| StarterScanModel.ScanModel.OnActorCount | 10-actors-in-a-distributed-system/projects/starter/Sky/ScanModel.swift:64-72 | `isConnected` is `count > 1` for every published count. |
| StarterScanModel.ScanModel.ObserveActorSystem | 10-actors-in-a-distributed-system/projects/starter/Sky/ScanModel.swift:64-72 | The model is connected exactly when more than one actor is registered. |
| StarterScanModel.ScanModel.OnScheduled | 10-actors-in-a-distributed-system/projects/starter/Sky/ScanModel.swift:145-147 | `scheduled` goes up by one. |
| StarterScanModel.ScanModel.OnTaskCompleted | 10-actors-in-a-distributed-system/projects/starter/Sky/ScanModel.swift:136-142 | `completed` and `counted` go up and `scheduled` down by one. |
| StarterScanModel.ScanModel.Settled | 10-actors-in-a-distributed-system/projects/starter/Sky/ScanModel.swift:74-89 | Every settle, failed or not, is one `onTaskCompleted`, and starting the next worker schedules it. |
| StarterScanModel.ScanModel.RunAllTasks | 10-actors-in-a-distributed-system/projects/starter/Sky/ScanModel.swift:91-130 | Numbers `0..<max(4,total)` each run once, and failures are logged and not retried. Every settle counts in `counted`. At the end `completed` and `scheduled` are 0. |
| StarterScanModel.ScanModel.StartBatch | 10-actors-in-a-distributed-system/projects/starter/Sky/ScanModel.swift:95-101 | Starts workers 0 to 3 and schedules four. |
| StarterScanModel.ScanModel.Turn | 10-actors-in-a-distributed-system/projects/starter/Sky/ScanModel.swift:107-122 | One turn keeps the window and the counters in step. |
| StarterScanModel.ScanModel.ResultLoop | 10-actors-in-a-distributed-system/projects/starter/Sky/ScanModel.swift:107-122 | The loop ends when the group drains or the events run out, with the invariant kept. |
| RetryGroup.EmptyGroup | 10-actors-in-a-distributed-system/projects/final/Sky/ScanModel.swift:139-145 | Before dispatch, nothing is started, in flight or failed. |
| RetryGroup.Started | 10-actors-in-a-distributed-system/projects/final/Sky/ScanModel.swift:139-145 | Dispatching starts a worker for the next number, on the chosen system. |
| RetryGroup.RanAt | 10-actors-in-a-distributed-system/projects/final/Sky/ScanModel.swift:147-163 | A finished worker leaves the group. A success is logged, and a failure is queued for a retry and recorded as failed. |
| RetryGroup.Requeued | 10-actors-in-a-distributed-system/projects/final/Sky/ScanModel.swift:157-160 | A queued failure rejoins the group for the same input, on the local system. |
| RetryGroup.EmptyShape | 10-actors-in-a-distributed-system/projects/final/Sky/ScanModel.swift:139-145 | The empty group satisfies the group invariant, and the local load is where it started. |
| RetryGroup.StartedShape | 10-actors-in-a-distributed-system/projects/final/Sky/ScanModel.swift:139-145 | Dispatch keeps the invariant: each number below `next` is succeeded, in flight or awaiting a retry, exactly once. |
| RetryGroup.StartedLoad | 10-actors-in-a-distributed-system/projects/final/Sky/ScanModel.swift:139-145 | A dispatch to the local system adds one to its load, through `commit`. |
| RetryGroup.RanAtShape | 10-actors-in-a-distributed-system/projects/final/Sky/ScanModel.swift:147-163 | A finished worker keeps the invariant. |
| RetryGroup.RanAtPlaced | 10-actors-in-a-distributed-system/projects/final/Sky/ScanModel.swift:147-163 | A finished worker's number moves to succeeded or to the retry queue. |
| RetryGroup.RanAtLoad | 10-actors-in-a-distributed-system/projects/final/Sky/ScanModel.swift:114-132 | A local worker's run takes one from the local load. |
| RetryGroup.RequeuedShape | 10-actors-in-a-distributed-system/projects/final/Sky/ScanModel.swift:157-160 | A retry keeps the invariant. |
| RetryGroup.RequeuedLoad | 10-actors-in-a-distributed-system/projects/final/Sky/ScanModel.swift:157-160 | A retry adds no commit, so the predicted load stays where it was. |
| RetryGroup.DrainedGroup | 10-actors-in-a-distributed-system/projects/final/Sky/ScanModel.swift:134-168 | When the group drains, every number in `0..<total` has succeeded exactly once, and the local load has dropped by one per failure. |
| DistributedScanModel.Connected | 10-actors-in-a-distributed-system/projects/final/Sky/ScanModel.swift:73-84 | A connected name resolves to the registered ScanActor, or else to a remote proxy with that id. |
| DistributedScanModel.ScanModel.constructor | 10-actors-in-a-distributed-system/projects/final/Sky/ScanModel.swift:65-69 | Creates the actor system with the local actor registered; counters are 0 and the disconnect listener runs. |
| DistributedScanModel.ScanModel.SetScheduled | 10-actors-in-a-distributed-system/projects/final/Sky/ScanModel.swift:46-53 | `isCollaborating` becomes `scheduled > 0 && peers.count > 1`. |
| DistributedScanModel.ScanModel.OnConnected | 10-actors-in-a-distributed-system/projects/final/Sky/ScanModel.swift:73-84 | A named peer is added to `peers`, a nameless note is skipped, and then `isConnected == peers.count > 1`. |
| DistributedScanModel.ScanModel.OnDisconnected | 10-actors-in-a-distributed-system/projects/final/Sky/ScanModel.swift:88-97 | A named peer is removed and `isConnected` recomputed. A nameless note ends the listener for good. |
| DistributedScanModel.ScanModel.OnLocalTaskUpdate | 10-actors-in-a-distributed-system/projects/final/Sky/ScanModel.swift:99-110 | While nothing is scheduled here, the model collaborates exactly when the local ScanActor is busy. |
| DistributedScanModel.ScanModel.OnScheduled | 10-actors-in-a-distributed-system/projects/final/Sky/ScanModel.swift:187-189 | `scheduled` goes up by one, and collaboration follows the rule. |
| DistributedScanModel.ScanModel.OnTaskCompleted | 10-actors-in-a-distributed-system/projects/final/Sky/ScanModel.swift:178-184 | `completed` and `counted` go up and `scheduled` down by one. |
| DistributedScanModel.ScanModel.Dispatch | 10-actors-in-a-distributed-system/projects/final/Sky/ScanModel.swift:139-145 | A selection either starts the next number on the chosen system, or is still waiting. The counters stay in step with the group. |
| DistributedScanModel.ScanModel.Work | 10-actors-in-a-distributed-system/projects/final/Sky/ScanModel.swift:114-132 | A worker calls `onTaskCompleted` whatever the outcome. A local worker lowers the local count. |
| DistributedScanModel.ScanModel.Retry | 10-actors-in-a-distributed-system/projects/final/Sky/ScanModel.swift:147-163 | A failure rejoins the group on the local system, without a commit. |
| DistributedScanModel.ScanModel.DispatchLoop | 10-actors-in-a-distributed-system/projects/final/Sky/ScanModel.swift:139-145 | The dispatch loop keeps the invariant, and stops only when every number is dispatched or the steps run out. |
| DistributedScanModel.ScanModel.ResultLoop | 10-actors-in-a-distributed-system/projects/final/Sky/ScanModel.swift:147-163 | The result loop retries every failure and keeps the invariant. |
| DistributedScanModel.ScanModel.RunAllTasks | 10-actors-in-a-distributed-system/projects/final/Sky/ScanModel.swift:134-171 | Every finished worker raises `counted`. After draining, each number in `0..<total` has succeeded exactly once, and the local count has dropped by the number of failures. `completed` and `scheduled` are reset and collaboration stops. |
| AdvancedScanModel.ScanModel.constructor | 10-advanced-actor/projects/final/Sky/ScanModel.swift:68-75 | The local system has no service and count 0; every counter starts at 0. |
| AdvancedScanModel.ScanModel.SetScheduled | 10-advanced-actor/projects/final/Sky/ScanModel.swift:43-50 | `isCollaborating` becomes `scheduled > 0 && systems.count > 1`. |
| AdvancedScanModel.ScanModel.OnConnectivity | 10-advanced-actor/projects/final/Sky/ScanModel.swift:85-110 | A named note sets `isConnected` to `systems.count > 1`; a nameless one is skipped. |
| AdvancedScanModel.ScanModel.OnScheduled | 10-advanced-actor/projects/final/Sky/ScanModel.swift:185-187 | `scheduled` goes up by one. |
| AdvancedScanModel.ScanModel.OnTaskCompleted | 10-advanced-actor/projects/final/Sky/ScanModel.swift:171-182 | `completed` goes up and `scheduled` down by one, and the rate takes one update. |
| AdvancedScanModel.ScanModel.Run | 10-advanced-actor/projects/final/Sky/ScanModel.swift:77-83 | `scheduled` is raised and lowered again; the local system's count drops by one, and the result passes through. |
| AdvancedScanModel.ScanModel.Dispatch | 10-advanced-actor/projects/final/Sky/ScanModel.swift:125-130 | The next number starts on the chosen system. |
| AdvancedScanModel.ScanModel.Work | 10-advanced-actor/projects/final/Sky/ScanModel.swift:151-165 | Only a success calls `onTaskCompleted`, so a failure leaves `scheduled` raised. |
| AdvancedScanModel.ScanModel.Retry | 10-advanced-actor/projects/final/Sky/ScanModel.swift:132-142 | A failure is run again for the same input on the local system. |
| AdvancedScanModel.ScanModel.DispatchLoop | 10-advanced-actor/projects/final/Sky/ScanModel.swift:125-130 | The dispatch loop keeps the invariant. |
| AdvancedScanModel.ScanModel.ResultLoop | 10-advanced-actor/projects/final/Sky/ScanModel.swift:132-142 | The result loop retries every failure and keeps the invariant. |
| AdvancedScanModel.ScanModel.RunAllTasks | 10-advanced-actor/projects/final/Sky/ScanModel.swift:117-149 | A released model throws "The model failed". Otherwise each number in `0..<total` succeeds exactly once. `completed` counts the successes and the rate follows their seconds. At the end `scheduled` and `countPerSecond` are 0 and `completed` is kept. |
| BatchByteAccumulator.ChunkCount | 02-beginner-async-await/projects/final/SuperStorage/Model/ByteAccumulator.swift:49 | The chunk count is `size / 20`, and never below 1. |
| BatchByteAccumulator.ByteAccumulator.constructor | 02-beginner-async-await/projects/final/SuperStorage/Model/ByteAccumulator.swift:46-51 | `size` zero bytes, with `offset` and `counter` at 0. |
| BatchByteAccumulator.ByteAccumulator.Append | 02-beginner-async-await/projects/final/SuperStorage/Model/ByteAccumulator.swift:54-58 | Writes only the byte at the old offset, and raises `offset` and `counter` by 1. Bytes from `offset` on stay 0. |
| BatchByteAccumulator.ByteAccumulator.Batch | 02-beginner-async-await/projects/final/SuperStorage/Model/ByteAccumulator.swift:61-65 | Resets `counter` and runs the block. It is true exactly when the block appended a byte, and a throw from the block is rethrown. |
| StreamByteAccumulator.ByteAccumulator.constructor | 03-asyncsequence-and-intermediate-task/projects/final/SuperStorage/Model/ByteAccumulator.swift:37-51 | `counter` starts at -1, `offset` at 0, with `size` zero bytes. |
| StreamByteAccumulator.ByteAccumulator.Data | 03-asyncsequence-and-intermediate-task/projects/final/SuperStorage/Model/ByteAccumulator.swift:43 | `data` is exactly the appended bytes, in order. |
| StreamByteAccumulator.ByteAccumulator.Append | 03-asyncsequence-and-intermediate-task/projects/final/SuperStorage/Model/ByteAccumulator.swift:54-58 | Stores the byte at `offset`, and raises `offset` and `counter`. |
| StreamByteAccumulator.ByteAccumulator.IsBatchCompleted | 03-asyncsequence-and-intermediate-task/projects/final/SuperStorage/Model/ByteAccumulator.swift:61-63 | Holds exactly when `counter >= chunkCount`. Because of the -1 start, the first batch needs one byte more. |
| StreamByteAccumulator.ByteAccumulator.CheckCompleted | 03-asyncsequence-and-intermediate-task/projects/final/SuperStorage/Model/ByteAccumulator.swift:65-68 | Returns `counter == 0` and then sets `counter` to 0. It is false on a fresh accumulator, and afterwards true exactly when nothing was appended since the last check. |
| Downloads.FirstIndex | 02-beginner-async-await/projects/challenge/SuperStorage/Model/SuperStorageModel.swift:116-122 | The first entry with the name, or none when no entry has it. |
| Downloads.SuperStorageModel.constructor | 02-beginner-async-await/projects/starter/SuperStorage/Model/SuperStorageModel.swift:38 | No downloads, not stopped. |
| Downloads.SuperStorageModel.AddDownload | 02-beginner-async-await/projects/challenge/SuperStorage/Model/SuperStorageModel.swift:110-113 | Appends exactly one entry with the name and progress 0; existing entries are untouched. |
| Downloads.SuperStorageModel.UpdateDownload | 02-beginner-async-await/projects/challenge/SuperStorage/Model/SuperStorageModel.swift:116-122 | Only the first entry with that name changes, and only its progress. Length, names and ids stay as they were, and with no match nothing changes. |
| Downloads.SuperStorageModel.Reset | 02-beginner-async-await/projects/challenge/SuperStorage/Model/SuperStorageModel.swift:101-104 | Clears the stop flag and the list. |
| Downloads.SuperStorageModel.Download | 02-beginner-async-await/projects/starter/SuperStorage/Model/SuperStorageModel.swift:41-46 | Throws "Could not create the URL." when the URL cannot be built, and otherwise returns empty data. |
| Downloads.SuperStorageModel.DownloadWithProgress | 03-async-sequences/projects/final/SuperStorage/Model/SuperStorageModel.swift:87-130 | A ranged request needs status 206 and a plain one 200. Otherwise it throws a cancellation exactly when stopped without partial-download support. Else it returns a prefix of the stream, all of it when not stopped. |
| Multipart.CeilDiv | 02-beginner-async-await/projects/challenge/SuperStorage/Model/SuperStorageModel.swift:87 | The rounded-up quotient. |
| Multipart.PartInfo | 02-beginner-async-await/projects/challenge/SuperStorage/Model/SuperStorageModel.swift:86-92 | Each part starts at `index * standardPartSize`. Its size is at most the standard size and does not pass the end of the file, and it is cut only at the end. |
| Multipart.Parts | 02-beginner-async-await/projects/challenge/SuperStorage/Model/SuperStorageModel.swift:93-94 | Exactly four parts, indices 0 to 3 in order. |
| Multipart.PartsTile | 02-beginner-async-await/projects/challenge/SuperStorage/Model/SuperStorageModel.swift:86-94 | Consecutive parts are `standardPartSize` apart and named "<name> (part i+1)". Together they reach the end of the file, none past it. |
| Multipart.TinyFileNegativePart | 02-beginner-async-await/projects/challenge/SuperStorage/Model/SuperStorageModel.swift:89 | For a 1-byte file the third part has a negative size. |
| Multipart.NumBatches | 03-async-sequences/projects/final/SuperStorage/Model/SuperStorageModel.swift:134-140 | Six batches or seven. |
| Multipart.NumBatchesRule | 03-async-sequences/projects/final/SuperStorage/Model/SuperStorageModel.swift:134-140 | Seven exactly when `size` is not a multiple of 6. |
| ImageCache.ImageLoader.constructor | 09-intermediate-actor/projects/challenge/EmojiArt/Networking/ImageLoader.swift:42 | The cache is empty and the access counter is 0. |
| ImageCache.ImageLoader.SetUp | 09-intermediate-actor/projects/challenge/EmojiArt/Networking/ImageLoader.swift:91-95 | Creates the access stream's continuation and changes nothing else. |
| ImageCache.ImageLoader.Add | 09-intermediate-actor/projects/challenge/EmojiArt/Networking/ImageLoader.swift:44-46 | The key holds the completed image, and other keys are unchanged. |
| ImageCache.ImageLoader.GetImage | 09-intermediate-actor/projects/challenge/EmojiArt/Networking/ImageLoader.swift:48-80 | A completed hit returns the image, counts the access and reports it. An in-progress entry awaits the same task, and a failed one throws "Download failed". Only a miss starts a download and marks the key in progress. |
| ImageCache.ImageLoader.Finish | 09-intermediate-actor/projects/challenge/EmojiArt/Networking/ImageLoader.swift:70-79 | After the download the key is completed on success, or failed with the error rethrown. |
| ImageCache.ImageLoader.Clear | 09-intermediate-actor/projects/challenge/EmojiArt/Networking/ImageLoader.swift:82-84 | Empties the cache but keeps the access counter. |
| DiskStorage.Components | 09-intermediate-actor/projects/challenge/EmojiArt/Database/DiskStorage.swift:56 | Splitting at punctuation always gives at least one component. |
| DiskStorage.Underscored | 09-intermediate-actor/projects/challenge/EmojiArt/Database/DiskStorage.swift:56-57 | Each punctuation character becomes `_`, and every other character is kept in place. |
| DiskStorage.JoinedComponents | 09-intermediate-actor/projects/challenge/EmojiArt/Database/DiskStorage.swift:56-57 | Splitting at punctuation and joining with `_` is the same as replacing each punctuation character with `_`. |
| DiskStorage.FileNameShape | 09-intermediate-actor/projects/challenge/EmojiArt/Database/DiskStorage.swift:54-58 | The first character is dropped, and an empty path gives "". The name is one shorter than the path, keeps each other character in place with punctuation as `_`, and has no punctuation but `_`. |
| Blabber.AddressFor | 05-intermediate-async-await/projects/final/Blabber/Model/BlabberModel.swift:62-73 | An address wins over an error. With no address, the error is thrown, or "Address encoding failed" when there is none. |
| Blabber.CountdownValue | 05-intermediate-async-await/projects/final/Blabber/Model/BlabberModel.swift:84-98 | Counts 3, 2 and 1 give "3...", "2..." and "1...", 0 gives the party emoji and the message, and below 0 the stream ends. |
| Blabber.YieldCount | 05-intermediate-async-await/projects/final/Blabber/Model/BlabberModel.swift:81-98 | An empty message sends nothing; an uncancelled countdown yields four values. |
| Blabber.CountdownStep | 06-testing-asynchronous-code/projects/final/BlabberTests/BlabberTests.swift:68-88 | The i-th value yielded is exactly "3...", "2...", "1...", then the message, and the fifth pull ends the stream. |
| Blabber.FirstFailure | 06-asynchronous-code-with-task-and-continuation/projects/starter/Blabber/Model/BlabberModel.swift:231-238 | The first element whose block throws, with every earlier one succeeding. |
| Blabber.Updates | 05-intermediate-async-await/projects/final/Blabber/Model/BlabberModel.swift:159-164 | At most one message per line. |
| Blabber.UpdatesConcat | 05-intermediate-async-await/projects/final/Blabber/Model/BlabberModel.swift:159-164 | Lines are handled one by one, in arrival order. |
| Blabber.UpdatesKeepDecodable | 05-intermediate-async-await/projects/final/Blabber/Model/BlabberModel.swift:159-164 | Each decodable line's message is appended, every appended message comes from a line, and undecodable lines are skipped. |
| Blabber.BlabberModel.constructor | 05-intermediate-async-await/projects/final/Blabber/Model/BlabberModel.swift:39-47 | No username and no messages. |
| Blabber.BlabberModel.Say | 05-intermediate-async-await/projects/final/Blabber/Model/BlabberModel.swift:168-184 | Empty text sends nothing. A system message has user nil, and others carry the username. A transport error is rethrown, and a status other than 200 fails with "The server responded with an error." |
| Blabber.BlabberModel.Countdown | 05-intermediate-async-await/projects/final/Blabber/Model/BlabberModel.swift:81-103 | An empty message sends nothing. Otherwise the yielded texts are sent in order, each as a `say` from the user, until the stream ends, is cancelled, or a `say` fails, which rethrows. |
| Blabber.BlabberModel.ShareLocation | 05-intermediate-async-await/projects/final/Blabber/Model/BlabberModel.swift:50-78 | The resolved address is sent as "📍 " + address; a resolution failure sends nothing and rethrows. |
| Blabber.BlabberModel.ShareLocationWhenAuthorized | 06-asynchronous-code-with-task-and-continuation/projects/starter/Blabber/Model/BlabberModel.swift:54-56 | Throws "The app isn't authorized to use location data" unless the authorization is always or when-in-use, and otherwise shares as before. |
| Blabber.BlabberModel.AppendUpdates | 05-intermediate-async-await/projects/final/Blabber/Model/BlabberModel.swift:159-164 | The messages gain exactly the updates of the lines, in order, and nothing else changes. |
| Blabber.BlabberModel.ReadMessages | 05-intermediate-async-await/projects/final/Blabber/Model/BlabberModel.swift:132-165 | A missing first line fails with "No response from server", and an undecodable one with "Invalid response from server". A valid status posts "<n> active users", then the later decodable lines in order. |
| Blabber.ForEach | 06-asynchronous-code-with-task-and-continuation/projects/starter/Blabber/Model/BlabberModel.swift:231-238 | Applies the block in order and stops at the first thrown error, which it rethrows. |
| Blabber.FirstFailureAt | 06-asynchronous-code-with-task-and-continuation/projects/starter/Blabber/Model/BlabberModel.swift:231-238 | When elements before `k` succeed and element `k` throws, the first failure is at `k`. |

## Left out

- The Bonjour and MultipeerConnectivity transport (`BonjourService`, `ScanTransport`), the distributed-actor runtime (`executeDistributedTarget`) and the five-second timeout race: I/O and concurrency. A send is an input `Result`.
- `Systems.swift` of the advanced-actor chapter is not part of this model. Its peer count is the parameter `systemCount`, its dispatch choice is the input of each `Pick` step, and its `firstAvailableSystem` is not modelled.
- JSONEncoder and JSONDecoder: encoding is the constructor of a tagged `Blob`, and only a non-finite `Double` fails to encode. Decoding succeeds only at the type a value was encoded with, which is narrower than JSONDecoder: that one also reads a JSON integer as a `Double`, a whole-number `Double` as an `Int`, and base64 `Data` as a `String`.
- `Double` fields: the published `countPerSecond` of the distributed chapter's models, download progress values, and the `Double` rounding in `chunkCount`, `partInfo` and `numBatches`. The integer versions agree for every size a `Double` holds exactly.
- `Task.sleep`, wall-clock dates and the `started` date: seconds are a parameter and sleeping is not modelled.
- The unlocked read of `registry` in `PeerList.ids` is a data race that a one-step-at-a-time model cannot show.
- `Message.swift` and `ServerStatus` are not part of this model. A system message is taken to have no user, and message ids and dates are not modelled. JSON decoding of a chat line is the input `ChatLine`.
- The URLSession calls of SuperStorage and Blabber, `chat()` with its cancellation handler, `observeAppStatus`, and the location manager and its delegate. Their outcomes are inputs.
- The detached progress-reporting task and the `downloadWithProgress` / `multiDownloadWithProgress` stubs that return empty data.
- The re-reading nuance of `stream.lines`: each line is handled once, in order.
- DiskStorage.FileName: Foundation's `.punctuationCharacters` is modelled for ASCII only, and other Unicode punctuation is not modelled. `dropFirst()` drops one Swift `Character`, a whole grapheme cluster, while the model drops one Unicode scalar. The two differ when a path starts with a combining sequence.
- SwiftUI views, the book server, LittleJohn, `EmojiArtModel`, `ImageDatabase` and disk reads and writes: UI, network and file I/O.
- Invocation.InvocationDecoder.DecodeNextArgument: asking for more arguments than were recorded traps in `removeFirst`, so it is a precondition rather than an error path.
- Blabber.BlabberModel.Countdown: `say`'s network outcome is reduced to a status of 500 for the one call `failsAt`, and 200 for every other call. A cancelled sleep is the input `cancelledAt`.
- DistributedActorSystem.BonjourActorSystem.FirstAvailableSystem: a selection that never finds a peer waits forever in Swift. Here it is given a finite number of passes and reports that it is still waiting.
- DistributedScanModel.ScanModel.RunAllTasks and AdvancedScanModel.ScanModel.RunAllTasks: after the steps run out, the group is reported as unfinished rather than waiting.
- DistributedScanModel.ScanModel.RunAllTasks and AdvancedScanModel.ScanModel.RunAllTasks: the set of peers is fixed for the whole run. In the app, the `.connected` and `.disconnected` listeners run alongside `runAllTasks`, so a peer can join or leave mid-run and change `peers.count`, `isConnected` and `isCollaborating`. The model has those listeners only as separate operations (`OnConnected`, `OnDisconnected`, `OnConnectivity`) that run between runs. The registry, or `systemCount`, does not change during one.
- StarterActorSystem.BonjourActorSystem.WithActorsWriteBack: `didSet` republishes `actorCount` and `connectedActors` through a `Task` on the main actor, so they arrive a little later. The model updates them in the same step.
- The async-sequence chapter's own `ByteAccumulator` is not part of this model. `Downloads.SuperStorageModel.DownloadWithProgress` uses the beginner chapter's accumulator, which has the same `batch`, `append` and `isBatchCompleted` interface. The code that drives the other chapter's stream accumulator is not part of this model either.

## Findings

| source | as written | input that shows it | evidently intended | confidence | as-written member | corrected member |
|---|---|---|---|---|---|---|
| 10-actors-in-a-distributed-system/projects/final/Sky/ScanModel.swift:157-160 | A failed scan is retried with `localSystem.run` without a `commit`, although every `run` lowers the counter. | One failure on an idle local actor: commit (1), run (0), retry run (-1). | Every run is paired with a commit, so the load never drops below where it started. | not executed | ScanActors.RetriesWithoutCommitLoad | ScanActors.RetriesWithCommitLoad |
