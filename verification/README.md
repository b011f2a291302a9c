# Batch work queue of the pipelines controller: a Dafny model

The controller runs a batch of files through a Kubernetes Job. Files are entries of a Valkey stream with one
consumer group; every pod's claimer takes one entry with XREADGROUP, under its pod name. The controller alone
acknowledges, enqueues again, dead-letters, reclaims and, when the Job fails, flushes. Each of its actions is
several separate queue calls, any of which can fail, with or without having taken effect, and pods start,
claim, crash, finish and vanish between any two of them.

This project models that protocol and proves what it keeps: no file is lost, success is never over-reported, a
completed verdict is right, attempts stay within their bounds and retries end, a healthy pod's message is never
taken from it, and exactly which files a flush dead-letters. Three smaller protocols are modelled beside it: the
namespace credentials, the queue keys against their ACL prefix, and the claimer's backoff.

## How it is built

- `Streams` gives the server's stream and consumer group as values; `ValkeyClient` is the client as a class over
  the two streams of an instance. A failing call uses up one of `faultsLeft`. Every property holds for every
  initial value, so for every pattern of finitely many failures; 0 is the fault-free case. `Decimal` is the text
  of the attempts counter.
- `Protocol` is the transition system: one label per queue call that takes effect and per pod move, `Enabled` the
  discipline the controller follows, `Inv` the invariant. A *run* is a sequence of labels, *legal* if each was
  enabled. A run is *smooth* if no message was given a second outcome.
- `Accounting` and `AbstractQueue` prove the properties of all legal runs.
- `Clusters` and `Reconciler` are the controller, method by method and loop by loop. Before every call the cluster
  makes any number of moves (`Interfere`). A ghost record of the run is kept, and `Valid()` says it is legal and
  leads to the present state, so every lemma about runs applies after any method, and to every prefix of the run,
  which is where the controller may be stopped. *Calm* means that no call can fail any more, the run is smooth so
  far and nothing waits after its outcome was written; that is preserved by every method and gives the exact
  results.
- `Flush` is the flush, loop by loop; `FlushProperties` says what it comes to, `AfterFlush` what the status says
  then, and `LaterPasses` is the passes that follow it, without the invariant: the bounds on attempts, and what
  happens to each message. `Initialize` is seeding, `Lifecycle` joins seeding, reconciling and the later passes.
- `Scenarios`, `CompletedVerdict` and `ReportedSuccess` hold the runs that show where the controller falls short, in
  states that the Job allows (`RunBlocks`: its completions are the seeded files, line 599, its backoff limit is 2,
  line 601).
- `Credentials`, `CredentialRace`, `Keys`, `Backoff` and `Pods` stand alone.

`dafny verify dfyconfig.toml` checks the whole project.

## Where the code and its comments differ

The model follows the code.

- The flush is described as moving any remaining stream entries to the dead letter queue (line 1160 of
  `internal/controller/pipelineinstance_controller_batch.go`). It records a file only if its attempts exceed the
  map's zero (1207, 1238, 1255), so a file never retried is deleted without a letter. `FlushIsCompleteIff` gives
  the exact condition, `FlushDropsUntriedFile` an input.
- A succeeded pod's message is acknowledged but not deleted (708-714), and the flush reads the whole stream
  (1221-1248). A file that needed a retry and then succeeded is therefore dead-lettered by a flush: `FlushOfRun`, and
  `SucceededFileIsFlushed` for a run whose Job has failed.
- Seeding that loses some XADDs is final: the next pass finds a non-empty stream and lists nothing (221-233, 276-283).
  Every listed file has a message if and only if the length read back at 285 is the number of files listed; the code
  compares it with 0 only (296). `SeedingIsCompleteIff`, `PartialSeeding`, and `Passes` for finality.
- An orphan branch handles pending entries without a body (696-703). Before a flush it is unreachable:
  `OneMessagePerPod`, and `HandleCompletedPods` proves it dead.
- The comment at 1004-1005 says that a succeeded pod's message is cleaned up without enqueueing it again. That holds
  if and only if the message is in the name of a pod that the reclaimer lists as succeeded. If the acknowledgement at
  1007 has failed, the owner stays `controller-reclaimer`; if the pod is gone, it is not in the list. Then the next
  pass enqueues the finished file again, or dead-letters it on the last attempt, even with no failing call in that
  pass: `RunReclaimer` gives the condition for every message taken (`Judged`), `FinishedWorkIsRepeated` a run. No file
  is lost, and no message gets a second outcome, so the counts do not show it. The handler repeats finished work too:
  if and only if a pod listed with a start failure, and not crashed or failed, succeeds before the pass is over
  (`JudgedByHandler` in `HandleCompletedPods`).
- A second outcome arises when a retry or dead letter took effect and its reply or the acknowledgement after it did
  not: the next pass writes another, or, if the pod has recovered and succeeded meanwhile, acknowledges the message as
  successful. `CountStep` and `CountedOnceIff` count exactly these; `SecondOutcomes` is a run of either kind.
- A failed metric read counts as 0 (1063-1081), and the completed verdict trusts it. The lag is read first, then the
  pending count, then the dead letters, and the Job is looked up last, while pods go on; the Job completes once as many
  pods succeeded as files were seeded (599). The verdict means a drained queue, and an outcome for every seeded file, if
  and only if the lag and the pending count were both read: `CompletionIsSoundIff`. Reported success is never too high
  if and only if all three metrics were read: `SuccessIsBoundedIff`. A complete Job alone does not mean that every file
  was processed: `CompleteWithoutFile` is a run in which the repetition of one file takes the place of the other. Since
  lag is read before pending, messages claimed in between count twice, never zero times: `claims` in `UpdateStatus`.
- Nothing stops a pass after a flush from updating the status again (the flush is at 127, the update at 109). It then
  reports every file without a letter as succeeded: too many by the files the flush dropped, too few by the successes
  it buried. `ReportAfterFlush`.
- The cleanup is not synchronised with ensures. Agreement between the ACL user and the secret is lost if and only if an
  ensure sets a password it obtained before the secret was deleted, or the secret is deleted after an ensure has set
  the user again: `AgreedThroughoutIff`, `AgreementIff`, and `BothOverlapsBreak` for the inputs.
- The backoff doubles a 64-bit duration without a check; for a ceiling above 1s * 2^33 the thirty-fourth doubling
  is negative. `ClosedFormIff`.

## Model

| member | source | states |
|---|---|---|
| `Accounting.NoLoss` | internal/controller/pipelineinstance_controller_batch.go:641-802 | In every state reachable from a seeded stream, under any failing calls, lost replies and stops, each seeded file is waiting with its body in the stream, was acknowledged as successful, or has a dead letter |
| `Accounting.CountStep` | internal/controller/pipelineinstance_controller_batch.go:706-788 | One step never lowers the number of places a file is in; it keeps it exactly when no message is given a second outcome |
| `Accounting.CountRun` | internal/controller/pipelineinstance_controller_batch.go:918-1051 | The same over any run: no interleaving of handler, reclaimer, pods, failures and stops lowers the count of any file |
| `Accounting.CountedOnceIff` | internal/controller/pipelineinstance_controller_batch.go:758-788 | Over a run the overall count is constant if and only if no message was given a second outcome |
| `Accounting.OutcomesExclude` | internal/controller/pipelineinstance_controller_batch.go:1006-1038 | Over a run in which no message got a second outcome, no message is both acknowledged as successful and written off |
| `Accounting.DrainedIsFinished` | internal/controller/pipelineinstance_controller_batch.go:1105-1108 | Nothing undelivered and nothing pending means every seeded file succeeded or is dead-lettered |
| `Accounting.SuccessIsNotOverReported` | internal/controller/pipelineinstance_controller_batch.go:1083-1088 | total - lag - pending - dead letters never exceeds the acknowledged successes in any reachable state; with nothing half done it equals them if and only if no message was given two outcomes |
| `Accounting.Conservation` | internal/controller/pipelineinstance_controller_batch.go:1061-1094 | With one outcome per message and nothing half done, queued, running, succeeded and dead partition the seeded messages, file name by file name |
| `Accounting.AttemptsTrueRun` | internal/controller/pipelineinstance_controller_batch.go:756-775 | With one outcome per message and distinct files, the attempts of a waiting message are the number of distinct messages of its file written off so far, at most maxAttempts of them, and a file has a dead letter iff there are exactly maxAttempts |
| `Accounting.BudgetStep` | internal/controller/pipelineinstance_controller_batch.go:756-788 | Writing off an execution spends one of the attempts left over the waiting messages; an added work message spends one of those that may still be retried |
| `Accounting.RetriesAreBounded` | internal/controller/pipelineinstance_controller_batch.go:1020-1035 | With one outcome per message at most total * maxAttempts executions are ever written off and at most total * maxAttempts work messages ever exist |
| `Accounting.AttemptBounds` | internal/controller/pipelineinstance_controller_batch.go:756-775 | In every reachable state before a flush, under any failures, a work message reads back 0 <= attempts < maxAttempts and a dead letter exactly maxAttempts, whatever fallback the reader uses |
| `LaterPasses.ReconcileLater` | internal/controller/pipelineinstance_controller_batch.go:96-127 | The bounds of `AttemptBounds` over any passes after a flush whose calls may have failed, further flushes included, whatever pods are listed, claim or fail; an emptied stream stays empty, and without another flush no letter changes |
| `LaterPasses.WriteOff` | internal/controller/pipelineinstance_controller_batch.go:756-788 | A message read back as k attempts is filed: exactly one new message with k + 1, or, if that is maxAttempts, exactly one letter saying maxAttempts, and only then acknowledged; with no failing call both happen; whatever fails, at most one thing is written, it stays pending until then, and other deliveries stay |
| `LaterPasses.SettleEntry` | internal/controller/pipelineinstance_controller_batch.go:688-724 | A succeeded pod's entry, or one without a body, is acknowledged and nothing is written; any other is filed first; with no failing call it is no longer pending |
| `LaterPasses.HandlePod` | internal/controller/pipelineinstance_controller_batch.go:658-726 | A pod that is not completed changes nothing; the oldest delivery of a completed one is settled when no call fails: nothing is written if the pod succeeded or the body is gone, else exactly one retry or letter. Whatever fails, a message with a body leaves the pending list unwritten only if its pod succeeded, and no other delivery leaves it |
| `LaterPasses.HandleCompletedPods` | internal/controller/pipelineinstance_controller_batch.go:641-729 | Over all listed pods, whatever fails: only deliveries of completed pods leave the pending list, those with a body only if the pod succeeded or a successor was written; with no failing call the oldest delivery of each completed pod does |
| `LaterPasses.ReclaimOne` | internal/controller/pipelineinstance_controller_batch.go:1000-1048 | A claimed message is settled the same way by whether its consumer succeeded, and only its own entry is deleted, after that; with no failing call both happen |
| `LaterPasses.RunReclaimer` | internal/controller/pipelineinstance_controller_batch.go:918-1051 | Whatever fails, deliveries of listed pods that are pending or running without a broken container stay; a message with a body leaves the pending list only if its consumer is listed as succeeded or a successor was written; as many messages and letters are written as messages were refiled, none for a succeeded pod. With no failing call every idle delivery within reach of any other consumer is settled and deleted, with a successor iff its pod is not listed as succeeded |
| `Flush.WithinReads` | internal/controller/pipelineinstance_controller_batch.go:1280-1292 | The bounds in the words of the readers: 0 <= attempts < maxAttempts for a work message and exactly maxAttempts for a letter, whatever the fallback |
| `Flush.FlushWithin` | internal/controller/pipelineinstance_controller_batch.go:1161-1278 | A flush any of whose calls fail leaves part of the stream as it was and keeps the bounds |
| `Accounting.OneMessagePerPod` | internal/controller/pipelineinstance_controller_batch.go:667-714 | In every reachable state a pod has at most one pending message, the one delivered to it, and every pending message is at or below the cursor with its body in the stream |
| `Accounting.ReclaimerSparesLivePods` | internal/controller/pipelineinstance_controller_batch.go:932-986 | In every reachable state the pending message of a pod that is pending or running without a crashed container is in that pod's name: the reclaimer never took it, however pods move between XPENDING, the pod list and XCLAIM |
| `Accounting.HealthyPodKeepsItsMessage` | internal/controller/pipelineinstance_controller_batch.go:658-664 | In every reachable state a pod that is alive and has shown no failure still holds its message, and nothing was written or acknowledged for it |
| `AbstractQueue.StepRefines` | internal/controller/pipelineinstance_controller_batch.go:641-802 | Each queue call that takes effect and each pod move is one action of an abstract queue (FIFO of tickets, table of executions, set of successes, dead letters) or a stutter; an execution is requeued only while attempts are left and buried, under a letter saying maxAttempts, only when none is |
| `AbstractQueue.RunRefines` | internal/controller/pipelineinstance_controller_batch.go:918-1051 | Every run is, state by state, a run of the abstract queue |
| `Protocol.StepInv` | internal/controller/pipelineinstance_controller_batch.go:758-788 | Every step keeps the invariant: bodies of waiting messages, owners, attempts, pods, and that a message leaves the pending list only as a success or after its retry or dead letter was written |
| `Protocol.RunInv` | internal/controller/pipelineinstance_controller_batch.go:918-1051 | The invariant holds in every reachable state |
| `Protocol.SeededInv` | internal/controller/pipelineinstance_controller_batch.go:278-278 | A freshly seeded stream of first attempts meets the invariant |
| `Protocol.OwnersKeptByClaim` | cmd/claimer/main.go:271-318 | A claim gives the new pod the next undelivered message and no pod a second one |
| `Pods.NotAliveIsStable` | internal/controller/pipelineinstance_controller_batch.go:901-912 | A pod the reclaimer would not protect never has to be protected again |
| `Pods.DetectContainerCrash` | internal/controller/pipelineinstance_controller_batch.go:901-912 | True iff the pod is running and some main container, at any index, has terminated with a non-zero exit code |
| `Pods.DetectContainerStartFailure` | internal/controller/pipelineinstance_controller_batch.go:863-896 | True iff some container of the list, at any index, waits for one of the seven reasons |
| `Pods.DetectPodStartFailure` | internal/controller/pipelineinstance_controller_batch.go:851-861 | The same over main and init containers |
| `Clusters.EnabledIsStable` | internal/controller/pipelineinstance_controller_batch.go:945-986 | What makes a controller call right when it was checked still holds when it takes effect, after any pod moves in between |
| `Clusters.StepKeeps` | internal/controller/pipelineinstance_controller_batch.go:780-788 | A controller step leaves every other pending message with its owner and undoes no outcome |
| `Clusters.ClusterStepDrifts` | cmd/claimer/main.go:271-318 | A pod move changes no message, no outcome and no owner of a pending message |
| `Clusters.Cluster.constructor` | internal/controller/pipelineinstance_controller_batch.go:189-325 | A cluster over a freshly seeded stream and an empty dead letter queue starts a legal run |
| `Clusters.Cluster.Move` | cmd/claimer/main.go:271-318 | One pod move, possible or not, extends the recorded legal run and only drifts the world |
| `Clusters.Cluster.Interfere` | cmd/claimer/main.go:271-318 | Any number of pod moves between two controller calls do |
| `Clusters.Cluster.Write` | internal/controller/pipelineinstance_controller_batch.go:758-775 | Writing a retry or a dead letter is a legal step whatever the reply; an acknowledged write covers the message |
| `Clusters.Cluster.Ack` | internal/controller/pipelineinstance_controller_batch.go:784-788 | An acknowledged XACK removes exactly that message from the pending list; no other message changes hands |
| `Clusters.Cluster.DeleteMessage` | internal/controller/pipelineinstance_controller_batch.go:1044-1047 | XDEL of a message that is no longer pending is a legal step and removes its body |
| `Clusters.Cluster.ClaimMessages` | internal/controller/pipelineinstance_controller_batch.go:985-989 | XCLAIM moves to the reclaimer those of the ids that are still idle, and answers with exactly these |
| `Clusters.Cluster.DeletePod` | internal/controller/pipelineinstance_controller_batch.go:790-801 | Requests the deletion of exactly that pod; the queue is untouched |
| `Clusters.Cluster.ReadMessage` | internal/controller/pipelineinstance_controller_batch.go:690-696 | A range read of one id answers with that message or, if it is gone, with nothing |
| `Reconciler.BatchReconciler.HandleFailedPodMessage` | internal/controller/pipelineinstance_controller_batch.go:742-802 | Legal under any failures; with none, the message ends acknowledged with its retry or dead letter written; the pod is deleted iff it failed to start or crashed, and only after that |
| `Reconciler.BatchReconciler.ResolveMessage` | internal/controller/pipelineinstance_controller_batch.go:705-724 | The message of a completed pod ends done if the pod succeeded, else retried or dead-lettered; only a broken pod is deleted |
| `Reconciler.BatchReconciler.HandlePod` | internal/controller/pipelineinstance_controller_batch.go:658-726 | No other consumer loses a message; with no failing call, everything a completed pod held has its outcome, and a pod that held a message and did not succeed is deleted iff it is running with a container terminated with an error or a container of either kind waits for a start failure; a failed pod without a waiting container is never deleted |
| `Reconciler.BatchReconciler.HandleCompletedPods` | internal/controller/pipelineinstance_controller_batch.go:641-729 | With no failing call every completed pod of the list has had its message resolved, done iff it is listed as succeeded and written off otherwise; finished work is repeated iff a pod listed as unable to start succeeds later; pods that had ended or were broken before the pass are in that list. Whatever fails, only pods listed as running with a container terminated with an error, or with a container waiting for a start failure, are deleted, never a failed pod without a waiting container; with no failing call all of those that held a message are. The orphan branch is unreachable |
| `Reconciler.BatchReconciler.ProcessReclaimed` | internal/controller/pipelineinstance_controller_batch.go:1000-1048 | A claimed message ends done if its pod succeeded, else covered by a retry or dead letter, and is deleted only after its acknowledgement |
| `Reconciler.BatchReconciler.WriteOffReclaimed` | internal/controller/pipelineinstance_controller_batch.go:1020-1043 | A claimed message whose work is not done is acknowledged only after its retry or dead letter was written |
| `Reconciler.ClassifyPods` | internal/controller/pipelineinstance_controller_batch.go:945-966 | A pod counts as running iff it is pending, or running with no container, at any index, terminated with a non-zero exit code; as succeeded iff its phase says so |
| `Reconciler.FilterEntries` | internal/controller/pipelineinstance_controller_batch.go:968-979 | Keeps exactly the entries whose consumer is not running, in order, with their consumers |
| `Reconciler.BatchReconciler.FindOrphans` | internal/controller/pipelineinstance_controller_batch.go:930-983 | When the pod list is read no owner of a returned id is alive; a message that was idle and within reach of one batch when the pass began is returned iff its consumer is not alive in the list |
| `Reconciler.BatchReconciler.RunReclaimer` | internal/controller/pipelineinstance_controller_batch.go:918-1051 | Messages not taken keep their owner; with no failing call a message that was idle and within reach of one batch is taken iff its consumer is not listed as pending, or as running with no container terminated with an error; so it is if its pod ran with such a container, at any index, when the pass began. Every message taken is settled and deleted; it ends acknowledged iff its consumer is listed as succeeded, else written off, so finished work is repeated iff the owner is the reclaimer or gone from the list |
| `Reconciler.BatchReconciler.ProcessAll` | internal/controller/pipelineinstance_controller_batch.go:1000-1048 | With no failing call every claimed message is settled and deleted and none stays with the reclaimer |
| `Reconciler.BatchReconciler.UpdateStatus` | internal/controller/pipelineinstance_controller_batch.go:1054-1097 | The success written is what the other three counts leave of the total, 0 if they exceed it and never negative, whatever was read; it is never over-reported when all three metrics were read; without failures the counts add up to the total but for messages claimed between the first two reads; a lag and a pending count of 0, both read, mean the queue is drained |
| `Reconciler.BatchReconciler.WorkOff` | internal/controller/pipelineinstance_controller_batch.go:96-106 | With no failing call every pod that had ended when the pass began, unless gone since, has had its message handled, and every message that was due then is settled |
| `Reconciler.CheckCompletion` | internal/controller/pipelineinstance_controller_batch.go:1100-1129 | Complete iff both counts are 0 and the Job says so; an error iff both are 0 and the Job cannot be read |
| `Reconciler.CheckFailure` | internal/controller/pipelineinstance_controller_batch.go:1132-1158 | Failed iff the Job says so; a missing Job is no failure, an unreadable one an error |
| `Reconciler.CompletedRun` | internal/controller/pipelineinstance_controller_batch.go:1105-1125 | The completion verdict is sound: a drained legal run has an outcome for every seeded file |
| `Reconciler.ReadyToFlush` | internal/controller/pipelineinstance_controller_batch.go:1161-1172 | A run in any reachable state meets what a flush needs |
| `Reconciler.BatchReconciler.ReconcileBatch` | internal/controller/pipelineinstance_controller_batch.go:96-181 | A completed verdict whose lag and pending count were read means every seeded file succeeded or is dead-lettered; the status left behind never over-reports success and never says a negative number; with no failing call, pods that had ended are handled and due messages settled, and a failed run is flushed |
| `Reconciler.BatchReconciler.FlushFailedRun` | internal/controller/pipelineinstance_controller_batch.go:112-127 | Messages and letters keep to their bounds whatever fails; with no failing call the stream is empty and each name has a letter iff it was dead or left a retried message in the stream, even if pods claim meanwhile |
| `Lifecycle.ReconcileUntilVerdict` | internal/controller/pipelineinstance_controller_batch.go:42-182 | Over any number of passes no seeded file is lost before a flush, a completed verdict is sound, and attempts are within their bounds; with no failing call nothing is ever half done or given a second outcome, so retries stay bounded and every file name is conserved |
| `Lifecycle.CalmRunConserves` | internal/controller/pipelineinstance_controller_batch.go:1061-1094 | At the end of a run with one outcome per message and nothing half done, write-offs and messages are within total * maxAttempts, the four states partition the seeds, and attempts count the write-offs |
| `Lifecycle.RunInstance` | internal/controller/pipelineinstance_controller_batch.go:42-182 | From an empty queue: the seeded messages come from one listing and are all of it iff the total is its length; a completed run with that total has an outcome for every listed file; with no failing call that is every completed run, and bounds and conservation hold at its end; attempts are within their bounds to the end, passes after a flush included |
| `Flush.DrainPending` | internal/controller/pipelineinstance_controller_batch.go:1191-1218 | However many calls fail and whatever is claimed meanwhile, the rounds of the first drain are bounded by the outstanding messages and the rounds in which neither XACK nor XDEL took effect for any message; it tallies whatever it removes, and without failures and claims empties the pending list |
| `Flush.DrainRound` | internal/controller/pipelineinstance_controller_batch.go:1192-1217 | A round ends the drain, or has fewer outstanding messages afterwards, or neither XACK nor XDEL took effect for any message it was given |
| `Flush.DrainStream` | internal/controller/pipelineinstance_controller_batch.go:1221-1248 | The second drain ends, tallies whatever it removes, and without failures empties the stream, even under claims |
| `Flush.ReadExisting` | internal/controller/pipelineinstance_controller_batch.go:1174-1188 | Tallies the dead letters by file, with the ids of each |
| `Flush.Merge` | internal/controller/pipelineinstance_controller_batch.go:1250-1258 | The merged map holds the greatest attempts of stream and dead letters in any walking order |
| `Flush.WriteLetters` | internal/controller/pipelineinstance_controller_batch.go:1260-1277 | Without failures each file of the map has exactly one letter and all other letters stay; under any failures no letter says anything but maxAttempts, letters of files outside the map stay, and at most one file per failing call misses its letter |
| `Flush.FlushOutstandingWork` | internal/controller/pipelineinstance_controller_batch.go:1161-1278 | Ends under any failures and leaves nothing in the stream that was not there; if it gives up, a call has failed and no letter has changed; otherwise every attempted message that left the stream is in the map under its name with at least its attempts, all names of the map but at most one per failing call get their letter, and letters of other names stay. Without failures the stream is empty and the letters are the merge of both streams, even if pods claim meanwhile; the pending list is empty too if none does |
| `FlushProperties.FlushDeadLetters` | internal/controller/pipelineinstance_controller_batch.go:1174-1277 | A name has a letter after the flush iff it had one before or the stream held a message under it with positive attempts |
| `FlushProperties.FlushWritesOneLetter` | internal/controller/pipelineinstance_controller_batch.go:1250-1277 | Every name that counts an attempt ends with exactly one letter, saying max(maxAttempts, greatest attempts seen) |
| `FlushProperties.FlushMissesFew` | internal/controller/pipelineinstance_controller_batch.go:1250-1277 | Under failures, the names of attempted messages that left the stream without any letter are at most as many as the calls that failed while letters were written, unless the flush gave up |
| `FlushProperties.FlushKeepsUnreadable` | internal/controller/pipelineinstance_controller_batch.go:1196-1209 | A message whose attempts are not a number counts as exhausted: without failures its file ends with a letter, under "<unknown>" if it has no name |
| `FlushProperties.FlushIsCompleteIff` | internal/controller/pipelineinstance_controller_batch.go:1160-1161 | All outstanding work reaches the dead letter queue if and only if every message was attempted, or its name was already dead, or was attempted under another message |
| `FlushProperties.FlushDropsUntriedFile` | internal/controller/pipelineinstance_controller_batch.go:1207-1209 | The input that shows the condition is needed: a never-retried file vanishes |
| `FlushProperties.FlushIsDetermined` | internal/controller/pipelineinstance_controller_batch.go:1250-1260 | Any two outcomes of a flush hold the same letters equally often, so map order does not matter |
| `FlushProperties.FlushIsIdempotent` | internal/controller/pipelineinstance_controller_batch.go:1161-1278 | A second fault-free flush leaves every letter as often as before |
| `FlushProperties.FlushOfRun` | internal/controller/pipelineinstance_controller_batch.go:1161-1278 | After flushing any reachable state a name has a letter iff it was dead or left a retried message in the stream, and then exactly one, saying maxAttempts |
| `Scenarios.SucceededFileIsFlushed` | internal/controller/pipelineinstance_controller_batch.go:708-714 | A legal run without failing calls whose Job has failed (three failed pods, fewer succeeded than files): a file that succeeded on its second attempt is acknowledged, and the flush dead-letters it |
| `Scenarios.FinishedWorkIsRepeated` | internal/controller/pipelineinstance_controller_batch.go:1004-1016 | For every maxAttempts a legal run in which the only pod succeeds, the reclaimer's acknowledgement has no effect, and the next pass enqueues the file again or dead-letters it: nothing is acknowledged as successful, and the count does not change |
| `Scenarios.SecondOutcomes` | internal/controller/pipelineinstance_controller_batch.go:758-788 | Two legal runs in which a message gets a second outcome, another retry or a success after its retry: neither is smooth, and each counts the file once more |
| `CompletedVerdict.CompletionIsSoundIff` | internal/controller/pipelineinstance_controller_batch.go:1063-1125 | Over all reachable states, with the metrics read one after another while pods move and the Job found complete last, a completed verdict means a drained queue if and only if the lag and the pending count were both read; and only then does it mean that every seeded file succeeded or is dead-lettered |
| `ReportedSuccess.SuccessIsBoundedIff` | internal/controller/pipelineinstance_controller_batch.go:1063-1088 | Over the same states and reads the reported successes never exceed the real ones if and only if the lag, the pending count and the dead letter length were all read |
| `CompletedVerdict.FinishedWereDelivered` | internal/controller/pipelineinstance_controller_batch.go:598-601 | In every reachable state at most as many pods have succeeded as messages were delivered; with maxAttempts 1 a complete Job means that every message was delivered |
| `CompletedVerdict.CompleteWithoutFile` | internal/controller/pipelineinstance_controller_batch.go:598-601 | A legal run whose Job is complete and has not failed although one seeded file never succeeded and has no letter; with the lag unread the verdict is completed |
| `AfterFlush.ReportAfterFlush` | internal/controller/pipelineinstance_controller_batch.go:1083-1088 | For runs with one outcome per message over distinct non-empty file names: when a fault-free flush has left lag and pending count 0, the reported successes are the real ones plus the files dropped (no letter, never retried) less the successes buried (finished, but with a retried message in the stream) |
| `ValkeyClient.Valkey.CreateStreamAndGroup` | internal/queue/valkey.go:60-80 | Idempotent: afterwards the group exists, and neither stream changes |
| `ValkeyClient.Valkey.EnqueueFileWithAttempts` | internal/queue/valkey.go:84-105 | One new newest entry with the file and its attempts in decimal; an error may have had that effect or none |
| `ValkeyClient.Valkey.GetStreamLength` | internal/queue/valkey.go:108-122 | The number of entries |
| `ValkeyClient.Valkey.GetPendingCount` | internal/queue/valkey.go:125-152 | The number of pending entries |
| `ValkeyClient.Valkey.AckMessage` | internal/queue/valkey.go:155-167 | Removes exactly that id from the pending list and leaves the stream |
| `ValkeyClient.Valkey.AutoClaim` | internal/queue/valkey.go:184-246 | Takes exactly the oldest pending ids, up to the count: those with a body change owner and are returned in order, those without leave the pending list |
| `ValkeyClient.ClaimedOldest` | internal/queue/valkey.go:184-246 | Claiming the oldest loses no pending message with a body, and while all pending messages have one an empty answer means nothing is pending |
| `ValkeyClient.Valkey.ReadRange` | internal/queue/valkey.go:249-283 | The least entries between the bounds, in id order, up to the count |
| `ValkeyClient.Valkey.GetPendingForConsumer` | internal/queue/valkey.go:288-327 | The least pending ids of that consumer, at most the count, 10 if it is not positive |
| `ValkeyClient.Valkey.GetPendingEntryDetails` | internal/queue/valkey.go:332-382 | The least idle pending ids with their owners, at most the count, 100 if it is not positive |
| `ValkeyClient.Valkey.ClaimMessages` | internal/queue/valkey.go:385-417 | Of the given ids exactly the idle pending ones change owner; they are returned with their bodies, in order |
| `ValkeyClient.Valkey.DeleteMessages` | internal/queue/valkey.go:420-432 | Removes exactly these entries from that stream; no ids, no call |
| `ValkeyClient.Valkey.AddToDLQ` | internal/queue/valkey.go:435-452 | One new newest dead letter |
| `ValkeyClient.Valkey.GetConsumerGroupLag` | internal/queue/valkey.go:491-534 | The number of undelivered entries |
| `ValkeyClient.Valkey.ReadGroupNew` | cmd/claimer/main.go:271-318 | Delivers the oldest undelivered entry to the consumer and adds it to the pending list, or, if there is none, changes nothing |
| `Decimal.AtoiItoa` | internal/controller/pipelineinstance_controller_batch.go:1284-1284 | Reading a decimal undoes writing it on every machine integer |
| `Decimal.ParseAttemptsOfItoa` | internal/controller/pipelineinstance_controller_batch.go:1280-1292 | An attempts counter round-trips through its text, whatever the fallback; a negative or oversized number reads as the fallback |
| `Decimal.UnreadableIsFallback` | internal/controller/pipelineinstance_controller_batch.go:1280-1292 | Text that is not an optional sign followed by digits reads as the fallback |
| `Initialize.Instance.SeedFiles` | internal/controller/pipelineinstance_controller_batch.go:276-283 | The stream holds each file whose XADD took effect exactly once, in listing order; every file has a message iff the length of the stream is the number of files |
| `Initialize.Instance.InitializePipelineInstance` | internal/controller/pipelineinstance_controller_batch.go:189-325 | Once started, total and stream never change; a start is recorded with the length of the untouched stream of distinct first attempts, and every file of the listing that seeded it has a message iff that total is their number; files are enqueued only into an empty stream; nothing failing, a pass gives up only if listing does |
| `Initialize.Instance.Passes` | internal/controller/pipelineinstance_controller_batch.go:193-199 | Over any sequence of failed, stopped and repeated passes the messages come from one listing, each of its files at most once, and are all of it iff the recorded total is its length; what one pass seeded no later listing changes |
| `Initialize.SeedingIsCompleteIff` | internal/controller/pipelineinstance_controller_batch.go:233-296 | Every listed file has a message if and only if the length of the stream read back is the number of files listed |
| `Initialize.PartialSeeding` | internal/controller/pipelineinstance_controller_batch.go:276-283 | The input that shows it can fail: of two files one XADD is lost, the stream has length 1 and the second file no message |
| `Credentials.NamespaceCredentials.EnsureNamespaceValkeyCredentials` | internal/controller/pipelineinstance_controller.go:162-250 | Under any interleaving of ensures, with any failures and stops, the ACL user has the password of the usable secret; success means both exist, under the name "ns-" and the namespace and with a non-empty password. A secret that appears during an ensure holds exactly the password this ensure generated, and so does the user on success, unless another ensure created it first; with no failing call one of the two did. With no failing call it succeeds iff the secret found, if any, is usable; an unusable secret touches nothing |
| `Credentials.EnsureEach` | internal/controller/pipelineinstance_controller.go:195-246 | Two namespaces whose ensures each created their secret, from different generated passwords, have secrets, and on success users, with different passwords and names |
| `Credentials.NamespaceCredentials.CleanupNamespaceValkeyCredentials` | internal/controller/pipelineinstance_controller.go:259-310 | The user is gone before the secret at every stop; only a managed secret in a namespace without other active instances is cleaned up; with no failing call it succeeds |
| `Credentials.CountActive` | internal/controller/pipelineinstance_controller.go:269-278 | Positive iff some other instance of the list is not being deleted |
| `CredentialRace.AgreementIff` | internal/controller/pipelineinstance_controller.go:172-307 | Under any overlap of any number of ensures and cleanups the ACL user disagrees with the secret if and only if its password was obtained before the secret was last deleted |
| `CredentialRace.AgreedThroughoutIff` | internal/controller/pipelineinstance_controller.go:172-307 | Agreement holds all along a run if and only if no ensure sets a password obtained before a deletion of the secret and no secret is deleted after the user was set again |
| `CredentialRace.BothOverlapsBreak` | internal/controller/pipelineinstance_controller.go:295-305 | One ensure and one cleanup suffice for either overlap |
| `Credentials.NamespaceCredentials.EnsureACLUser` | internal/queue/valkey.go:461-479 | The user has exactly the secret's password afterwards, or the call failed |
| `Credentials.NamespaceCredentials.CreateSecret` | internal/controller/pipelineinstance_controller.go:206-230 | Of racing creators one wins, and the secret is then exactly the winner's; the others learn that a secret exists |
| `Credentials.NamespaceCredentials.DeleteACLUser` | internal/queue/valkey.go:482-488 | Leaves agreement intact |
| `Keys.KeysAreDistinct` | api/v1alpha1/pipelineinstance_types.go:207-215 | Work and dead letter keys of different instances are all distinct |
| `Keys.AclConfinesToNamespace` | internal/queue/valkey.go:461-462 | A queue key falls under the ACL prefix of a namespace iff it belongs to that namespace |
| `Backoff.ClosedFormIff` | cmd/claimer/main.go:491-513 | The k-th delay is min(1s * 2^k, max) for every k if and only if max <= 1s * 2^33; above that the doubling overflows |
| `Backoff.DelaysClimb` | cmd/claimer/main.go:504-513 | Up to that ceiling delays never decrease and never exceed max |
| `Backoff.ExponentialBackoff.constructor` | cmd/claimer/main.go:491-502 | The ceiling is raised to one second if it is lower |
| `Backoff.ExponentialBackoff.Next` | cmd/claimer/main.go:504-513 | Returns the delay of the number of calls since construction or reset |
| `Backoff.ExponentialBackoff.Reset` | cmd/claimer/main.go:515-517 | Starts the sequence again |

## Left out

- The streaming path, and rendering: Jobs, Deployments, environment, labels, GPU selectors, conditions, spans.
- `reason`, `run` and the failure-reason texts of messages and dead letters: nothing reads them back.
- S3 listing and download, and the network clients: a listing is a parameter, a call succeeds or fails.
- Real clocks: which deliveries have become idle is chosen freely and only grows until XCLAIM resets it.
- Stream ids are renumbered 1, 2, 3, ...; only their order matters to the program.
- GetConsumerGroupLag: lag is the exact number of undelivered entries; the zero for a missing lag field (518-521) and
  the error for an unknown group (533) are not modelled, since the server's null lag after deletions is not.
- CreateStreamAndGroup: records that the group exists; the errors the server gives without it are failed calls.
- AutoClaim: only the minimum idle time 0 and the positive count the flush passes are modelled.
- ReadGroupNew: a claimer that rejects the message it was handed (missing file or attempts) is a pod that fails.
- Pod lists are taken as current when they are read; stale informer caches are not modelled.
- Pod phase Unknown; pod names are never used twice; restart policy Never, so a claimer runs once per pod.
- XREADGROUP is atomic (effect if and only if reply), so retries of the claimer after a lost reply are not modelled.
- maxAttempts is fixed during a run, as are the pods' labels.
- One instance at a time is reconciled by one controller; different instances share no key (`KeysAreDistinct`).
- FlushOutstandingWork: does not say which files are lost when the flush's own calls fail, only how many
  (`FlushMissesFew`) and, if a failed read after the first drain gives it up (1223-1225), that no letter has changed.
- Passes after a flush: that no file is lost and that success is not over-reported ends with the flush. What is
  stated of them: what the handler and the reclaimer make of each message (`LaterPasses`), the bounds on attempts
  (`ReconcileLater`), and what their status says (`ReportAfterFlush`, for runs with one outcome per message; a listed
  object key is taken not to be empty).
- After the Job's TTL a new Job is created; terminal conditions are not stable there, and nothing is claimed of it.
- Liveness of the Job: a dead-lettered file yields no successful pod, so it is not claimed that a run completes.
- Ensuring credentials concurrently with cleaning them up is modelled by its effects on secret and user
  (`CredentialRace`), with fresh passwords told apart by number; the method for the cleanup is proved on its own.
- The ACL pattern is modelled as the prefix it stands for; namespaces and UIDs are taken to hold no colon.
- CleanupNamespaceValkeyCredentials: does not let ensures run at the same time; that overlap is `CredentialRace`.
