/** The batch reconciler: completed pods, the reclaimer, the status counts and the verdict, over a cluster
    that moves between any two calls and calls that may fail. */
module Reconciler {
  import opened Decimal
  import opened Streams
  import opened ValkeyClient
  import opened Pods
  import opened Protocol
  import opened Accounting
  import opened Clusters
  import opened Flush
  import opened FlushProperties

  // A pod the handler acts on.
  predicate IsOver(pod: Pod) {
    pod.phase.PodSucceeded? || pod.phase.PodFailed? || CannotStart(pod) || HasCrashed(pod)
  }

  // A pod seen in a list, and what stays true of it afterwards.
  ghost predicate Seen(w: World, name: string, pod: Pod) {
    && name in w.past.names && name != RECLAIMER
    && (pod.phase.PodSucceeded? ==> name in w.past.finished)
    && (ShowsFailure(pod) ==> name in w.past.faulted)
  }

  // Only messages of one consumer may have changed hands.
  ghost predicate KeepsOthers(w: World, w': World, name: string) {
    && PastGrows(w, w')
    && (forall id :: id in w.work.pel && w.work.pel[id] != name ==>
          id in w'.work.pel && w'.work.pel[id] == w.work.pel[id])
  }

  // Not succeeded, and a container failed to start or crashed.
  predicate Broken(pod: Pod) {
    !pod.phase.PodSucceeded? && (CannotStart(pod) || HasCrashed(pod))
  }

  ghost predicate OnlyBroken(before: seq<string>, after: seq<string>, name: string, pod: Pod) {
    after == before || (after == before + [name] && Broken(pod))
  }

  ghost predicate AllBroken(before: seq<string>, after: seq<string>, seen: map<string, Pod>) {
    before <= after && forall i :: |before| <= i < |after| ==> after[i] in seen && Broken(seen[after[i]])
  }

  // The message has its outcome and is no longer pending.
  ghost predicate Resolved(w: World, id: nat, succeeded: bool) {
    && id !in w.work.pel
    && (if succeeded then id in w.past.done else id in w.past.covered)
  }

  // Every message the pod held then has its outcome now: done if the pod succeeded, else retried or dead.
  ghost predicate Handled(w: World, w': World, name: string, pod: Pod) {
    forall id :: id in w.work.pel && w.work.pel[id] == name ==>
      id in w'.past.items && id <= w'.work.delivered && Resolved(w', id, pod.phase.PodSucceeded?)
  }

  ghost predicate StillHolds(w: World, w': World, name: string) {
    forall id :: id in w.work.pel && w.work.pel[id] == name ==> id in w'.work.pel && w'.work.pel[id] == name
  }

  // A claimed message on its way to an outcome.
  ghost predicate Reclaimable(w: World, id: nat, values: Body, workDone: bool) {
    && id in w.work.pel && w.work.pel[id] == RECLAIMER && Carries(w, id, values)
    && (workDone ==> id in w.past.ran && w.past.ran[id] in w.past.finished)
  }

  ghost predicate Finished(w: World, id: nat, workDone: bool) {
    id in w.past.items && id <= w.work.delivered && Resolved(w, id, workDone)
  }

  ghost predicate Settled(w: World, id: nat) {
    id !in w.work.pel && (id in w.past.done || id in w.past.covered)
  }

  // Settled by the reclaimer, which also deletes the message.
  ghost predicate Reclaimed(w: World, id: nat, workDone: bool) {
    Finished(w, id, workDone) && id !in w.work.entries
  }

  // A pod that has succeeded or failed.
  ghost predicate Ended(w: World, name: string) {
    name in w.pods && (w.pods[name].phase.PodSucceeded? || w.pods[name].phase.PodFailed?)
  }

  // A message that was due for reclaiming: idle for long enough, the pod that ran it no longer alive, and
  // within reach of one batch.
  ghost predicate Due(w: World, idle: set<nat>, id: nat) {
    Offered(w, idle, id) && id in w.past.ran && !AliveIn(w, w.past.ran[id])
  }

  // Idle for long enough, and within reach of one batch.
  ghost predicate Offered(w: World, idle: set<nat>, id: nat) {
    id in w.work.pel && id in idle && |Older(w, id)| < 100
  }

  ghost predicate BrokenAtWork(w: World, consumer: string) {
    consumer in w.pods && RunsBroken(w.pods[consumer])
  }

  // The consumer is a listed pod that is pending, or running with no main container that ended in an error.
  ghost predicate Shielded(pods: map<string, Pod>, consumer: string) {
    && consumer in pods
    && (pods[consumer].phase.PodPending? || (pods[consumer].phase.PodRunning? && !RunsBroken(pods[consumer])))
  }

  // The consumer of a pending message is a pod listed as succeeded.
  ghost predicate OwnerSucceeded(w: World, id: nat) {
    id in w.work.pel && w.work.pel[id] in w.pods && w.pods[w.work.pel[id]].phase.PodSucceeded?
  }

  // The pod that ran the message succeeded, and yet the message was retried or dead-lettered.
  ghost predicate Repeated(w: World, id: nat) {
    id in w.past.covered && id in w.past.ran && w.past.ran[id] in w.past.finished
  }

  // What the handler makes of the messages a listed pod held, judged by the pod as listed: finished work is
  // repeated iff the pod was listed as unable to start and succeeded all the same.
  ghost predicate JudgedByHandler(w: World, w': World, name: string, pod: Pod) {
    forall id :: id in w.work.pel && w.work.pel[id] == name ==>
      && (id in w'.past.done <==> pod.phase.PodSucceeded?)
      && (id in w'.past.covered <==> !pod.phase.PodSucceeded?)
      && (Repeated(w', id) <==> Recovered(w', name, pod))
  }

  ghost predicate Recovered(w: World, name: string, pod: Pod) {
    CannotStart(pod) && Alive(pod) && name in w.past.finished
  }

  // The pod list no longer connects the message with the pod that ran it.
  ghost predicate Disowned(w: World, id: nat) {
    id in w.work.pel && (w.work.pel[id] == RECLAIMER || w.work.pel[id] !in w.pods)
  }

  // What a pass of the reclaimer makes of a message it takes, judged by the pods as it listed them.
  ghost predicate Judged(listed: World, w: World, id: nat) {
    && (id in w.past.done <==> OwnerSucceeded(listed, id))
    && (id in w.past.covered <==> !OwnerSucceeded(listed, id))
    && (Repeated(w, id) <==> Disowned(listed, id) && id in w.past.ran && w.past.ran[id] in w.past.finished)
  }

  ghost predicate OwnersAre(w: World, consumers: map<nat, string>) {
    forall id :: id in consumers ==> id in w.work.pel && w.work.pel[id] == consumers[id]
  }

  ghost function Older(w: World, id: nat): set<nat> {
    set x | x in w.work.pel && x < id
  }

  // The body of a message says what was added.
  ghost predicate Carries(w: World, id: nat, values: Body) {
    id in w.past.items && values == Body(w.past.items[id].file, Itoa(w.past.items[id].attempts))
  }

  lemma ListedPodsAreSeen(w: World, max: int)
    requires Inv(w, max)
    ensures forall n :: n in w.pods ==> Seen(w, n, w.pods[n])
  {
  }

  lemma SeenIsStable(w: World, w': World, name: string, pod: Pod)
    requires Seen(w, name, pod) && PastGrows(w, w')
    ensures Seen(w', name, pod)
  {
  }

  lemma BodyCarries(w: World, id: nat)
    requires StreamOk(w.work) && ItemsOk(w) && id in w.work.entries
    ensures Carries(w, id, w.work.entries[id])
  {
  }

  // What a pending message of a pod looks like.
  lemma PodMessage(w: World, max: int, name: string, id: nat)
    requires Inv(w, max) && name != RECLAIMER && id in OwnedBy(w.work, name)
    ensures id in w.work.entries && Carries(w, id, w.work.entries[id])
    ensures id in w.past.ran && w.past.ran[id] == name
    ensures forall other :: other in OwnedBy(w.work, name) ==> other == id
    ensures w.past.items[id].attempts < max <= 0x7FFF_FFFF
    ensures id in w.past.covered ==> id in Loose(w)
  {
    assert Live(w, id);
  }

  // The two sets the reclaimer builds from the pod list.
  method ClassifyPods(list: map<string, Pod>) returns (running: set<string>, succeeded: set<string>)
    ensures running == set n | n in list && Alive(list[n])
    ensures succeeded == set n | n in list && list[n].phase.PodSucceeded?
    // Pending, or running with no main container terminated with an error.
    ensures forall n :: n in list ==> (n in running <==>
              || list[n].phase.PodPending?
              || (list[n].phase.PodRunning? && forall i :: 0 <= i < |list[n].containers| ==>
                    !list[n].containers[i].Terminated? || list[n].containers[i].exitCode == 0))
  {
    running, succeeded := {}, {};
    var todo := list.Keys;
    while todo != {}
      invariant todo <= list.Keys
      invariant running == set n | n in list && n !in todo && Alive(list[n])
      invariant succeeded == set n | n in list && n !in todo && list[n].phase.PodSucceeded?
      decreases todo
    {
      var name :| name in todo;
      todo := todo - {name};
      match list[name].phase
      case PodRunning =>
        var crashed := DetectContainerCrash(list[name]);
        if !crashed {
          running := running + {name};
        }
      case PodPending =>
        var crashed := DetectContainerCrash(list[name]);
        if !crashed {
          running := running + {name};
        }
      case PodSucceeded =>
        succeeded := succeeded + {name};
      case PodFailed =>
    }
  }

  // Entries whose consumer is not running, with the consumer of each.
  method FilterEntries(pending: seq<PendingEntry>, running: set<string>)
    returns (ids: seq<nat>, consumers: map<nat, string>)
    requires Ascending(PendingIds(pending))
    ensures Ascending(ids)
    ensures forall id :: id in ids <==> id in consumers
    ensures forall i :: 0 <= i < |pending| ==>
              (pending[i].id in consumers <==> pending[i].consumer !in running)
              && (pending[i].id in consumers ==> consumers[pending[i].id] == pending[i].consumer)
    ensures forall id :: id in consumers ==> id in PendingIds(pending)
  {
    ids, consumers := [], map[];
    ghost var all := PendingIds(pending);
    for i := 0 to |pending|
      invariant Ascending(ids) && forall id :: id in ids <==> id in consumers
      invariant forall k :: 0 <= k < |ids| ==> exists j :: 0 <= j < i && ids[k] == all[j]
      invariant forall j :: 0 <= j < i ==>
        (all[j] in consumers <==> pending[j].consumer !in running)
        && (all[j] in consumers ==> consumers[all[j]] == pending[j].consumer)
    {
      if pending[i].consumer !in running {
        assert forall k :: 0 <= k < |ids| ==> ids[k] < all[i];
        ids := ids + [pending[i].id];
        consumers := consumers[pending[i].id := pending[i].consumer];
      }
    }
    forall id | id in consumers ensures id in all {
      var k :| 0 <= k < |ids| && ids[k] == id;
    }
  }

  class BatchReconciler {
    const cluster: Cluster
    const maxAttempts: int
    var counts: FileCounts

    constructor (cluster: Cluster, counts: FileCounts)
      requires cluster.Valid()
      ensures this.cluster == cluster && maxAttempts == cluster.max && this.counts == counts
    {
      this.cluster, maxAttempts, this.counts := cluster, cluster.max, counts;
    }

    // The files seeded at the start.
    ghost function Total(): nat {
      |cluster.start.work.entries|
    }

    ghost predicate Valid()
      reads cluster, cluster.queue
    {
      cluster.Valid() && maxAttempts == cluster.max
    }

    ghost function Now(): World
      reads cluster, cluster.queue
    {
      cluster.Now()
    }

    // Nothing can fail any more, nothing was given two outcomes, nothing waits after its outcome was written.
    ghost predicate Calm()
      reads cluster, cluster.queue
    {
      cluster.Steady() && Loose(Now()) == {}
    }

    method HandleFailedPodMessage(name: string, id: nat, file: string, attempts: int,
                                  hasStartFailure: bool, hasCrash: bool)
      requires Valid() && id in Now().work.pel && id in Now().past.items && WrittenOff(Now(), id)
      requires file == Now().past.items[id].file && attempts == Now().past.items[id].attempts
      modifies cluster, cluster.queue, cluster.podApi
      ensures Valid() && Keeps(old(Now()), Now(), {id})
      ensures old(cluster.run) <= cluster.run && old(cluster.queue.idle) <= cluster.queue.idle
      ensures Parked(Now()) <= old(Parked(Now()))
      ensures old(Calm()) && id !in old(Now()).past.covered ==> Calm() && Resolved(Now(), id, false)
      // The pod is deleted only for a start failure or a crash, and only once its message is dealt with.
      ensures cluster.podApi.deletions == old(cluster.podApi.deletions)
              || (cluster.podApi.deletions == old(cluster.podApi.deletions) + [name]
                  && (hasStartFailure || hasCrash) && Resolved(Now(), id, false))
      ensures old(Calm()) && id !in old(Now()).past.covered && (hasStartFailure || hasCrash) ==>
                cluster.podApi.deletions == old(cluster.podApi.deletions) + [name]
    {
      hide Inv, Seeded, Legal, Exec, SmoothRun, PastGrows, Loose, Parked, Drift, Live;
      ghost var first := Now();
      var attempts := attempts + 1;
      var requeueOK := false;
      ghost var l: Label;
      if attempts < maxAttempts {
        l := Retry(id);
        requeueOK := cluster.Write(l, true, file, attempts);
      } else {
        l := DeadLetter(id);
        requeueOK := cluster.Write(l, false, file, attempts);
      }
      ghost var written := Now();
      KeepsWeaker(first, written, {}, {id});
      if !requeueOK {
        return;
      }
      assert id in written.work.pel;
      var acked := cluster.Ack(id, AckCovered(id));
      KeepsTransitive(first, written, Now(), {id});
      CoveredGrows(written, Now(), {id});
      if !acked {
        return;
      }
      if hasStartFailure || hasCrash {
        ghost var settled := Now();
        cluster.DeletePod(name);
        DriftKeeps(settled, Now());
        DriftResolves(settled, Now(), id);
        KeepsWeaker(settled, Now(), {}, {id});
        KeepsTransitive(first, settled, Now(), {id});
      }
    }

    // The message a completed pod holds is acknowledged as successful, or retried or dead-lettered.
    method ResolveMessage(name: string, pod: Pod, id: nat, values: Body, hasStartFailure: bool, hasCrash: bool)
      requires Valid() && IsOver(pod)
      requires hasStartFailure == CannotStart(pod) && hasCrash == HasCrashed(pod)
      requires id in Now().work.pel && Carries(Now(), id, values) && 0 <= Now().past.items[id].attempts <= MAX_INT
      requires pod.phase.PodSucceeded? ==> Enabled(Now(), AckDone(id), maxAttempts)
      requires ShowsFailure(pod) ==> WrittenOff(Now(), id)
      modifies cluster, cluster.queue, cluster.podApi
      ensures Valid() && Keeps(old(Now()), Now(), {id})
      ensures old(cluster.run) <= cluster.run && old(cluster.queue.idle) <= cluster.queue.idle
      ensures Parked(Now()) <= old(Parked(Now()))
      ensures old(Calm()) && id !in old(Now()).past.covered ==> Calm() && Resolved(Now(), id, pod.phase.PodSucceeded?)
      ensures OnlyBroken(old(cluster.podApi.deletions), cluster.podApi.deletions, name, pod)
      ensures old(Calm()) && id !in old(Now()).past.covered && Broken(pod) ==>
                cluster.podApi.deletions == old(cluster.podApi.deletions) + [name]
    {
      hide Inv, Seeded, Legal, Exec, SmoothRun, PastGrows;
      hide Loose, Parked, Keeps, Enabled, HasCrashed, CannotStart;
      var file := values.file;
      var attempts := ParseAttempts(values.attempts, 0);
      ParseAttemptsOfItoa(Now().past.items[id].attempts, 0);
      if pod.phase.PodSucceeded? {
        var acked := cluster.Ack(id, AckDone(id));
      } else {
        HandleFailedPodMessage(name, id, file, attempts, hasStartFailure, hasCrash);
      }
    }

    // One turn of the loop over the listed pods.
    method HandlePod(name: string, pod: Pod)
      requires Valid() && Seen(Now(), name, pod)
      modifies cluster, cluster.queue, cluster.podApi
      ensures Valid() && KeepsOthers(old(Now()), Now(), name)
      ensures old(cluster.run) <= cluster.run && old(cluster.queue.idle) <= cluster.queue.idle
      ensures Parked(Now()) <= old(Parked(Now()))
      ensures old(Calm()) ==> Calm()
      ensures old(Calm()) && IsOver(pod) ==> Handled(old(Now()), Now(), name, pod)
      // A pod that cannot go on is deleted once its message is dealt with, so that the Job replaces it.
      ensures OnlyBroken(old(cluster.podApi.deletions), cluster.podApi.deletions, name, pod)
      ensures old(Calm()) && Broken(pod) && OwnedBy(old(Now()).work, name) != {} ==>
                cluster.podApi.deletions == old(cluster.podApi.deletions) + [name]
      // In the fields of the pod: it runs with a container terminated with an error, or one of either kind waits
      // for one of seven reasons. Any other pod, an ordinary failed one too, is never deleted.
      ensures !RunsBroken(pod) && !WaitsForever(pod) ==> cluster.podApi.deletions == old(cluster.podApi.deletions)
      ensures old(Calm()) && !pod.phase.PodSucceeded? && OwnedBy(old(Now()).work, name) != {}
              && (RunsBroken(pod) || WaitsForever(pod)) ==>
                cluster.podApi.deletions == old(cluster.podApi.deletions) + [name]
      ensures pod.phase.PodFailed? && NoneWaits(pod) ==> cluster.podApi.deletions == old(cluster.podApi.deletions)
    {
      hide Inv, Seeded, Legal, Exec, SmoothRun, PastGrows, Loose, Parked, Drift, Live, Least, Keeps, KeepsOthers;
      hide Seen, Handled, Resolved, Enabled, WrittenOff, HasCrashed, CannotStart, ShowsFailure;
      hide RunsBroken, WaitsForever, NoneWaits;
      PodFields(pod);
      ghost var first := Now();
      KeepsReflexive(first);
      KeepsImpliesOthers(first, first, {}, name);
      var hasStartFailure := DetectPodStartFailure(pod);
      var hasCrash := DetectContainerCrash(pod);
      if !pod.phase.PodSucceeded? && !pod.phase.PodFailed? && !hasStartFailure && !hasCrash {
        return;
      }
      var ok, pendingIds := cluster.GetPendingForConsumer(name, 1);
      ghost var asked := Now();
      DriftKeeps(first, asked);
      KeepsImpliesOthers(first, asked, {}, name);
      if !ok {
        return;
      }
      if |pendingIds| == 0 {
        NothingPending(first, asked, name, pod);
        return;
      }
      var id := pendingIds[0];
      HeadIsOwned(asked, name, pendingIds);
      var messages;
      ok, messages := cluster.ReadMessage(id);
      ghost var read := Now();
      DriftKeeps(asked, read);
      KeepsTransitive(first, asked, read, {});
      KeepsImpliesOthers(first, read, {}, name);
      if !ok {
        return;
      }
      StillOwned(first, asked, read, name, pod, id, maxAttempts);
      if |messages| == 0 {
        // A pending entry without a body would be acknowledged here; before a flush there is none.
        assert false;
      }
      ResolveMessage(name, pod, id, messages[0].values, hasStartFailure, hasCrash);
      KeepsWeaker(first, read, {}, {id});
      KeepsTransitive(first, read, Now(), {id});
      OnlyThatOne(first, read, Now(), name, pod, id, maxAttempts);
    }

    method HandleCompletedPods() returns (ok: bool, ghost seen: map<string, Pod>)
      requires Valid()
      modifies cluster, cluster.queue, cluster.podApi
      ensures Valid() && PastGrows(old(Now()), Now())
      ensures old(cluster.run) <= cluster.run && old(cluster.queue.idle) <= cluster.queue.idle
      ensures Parked(Now()) <= old(Parked(Now()))
      ensures old(Calm()) ==> Calm() && ok
      // With no failing call, every finished pod of the list has had the message it held resolved; a pod
      // that had come to its end before the pass is in that list unless it is gone.
      ensures old(Calm()) ==>
                forall name :: name in seen && IsOver(seen[name]) ==> Handled(old(Now()), Now(), name, seen[name])
      ensures old(Calm()) ==>
                forall name :: name in seen && IsOver(seen[name]) ==>
                  JudgedByHandler(old(Now()), Now(), name, seen[name])
      ensures old(Calm()) ==> forall name :: name in Now().pods && Ended(old(Now()), name) ==>
                name in seen && seen[name].phase == old(Now()).pods[name].phase
      // So is one that was running with a broken container then, still like that or failed by now.
      ensures old(Calm()) ==> forall name :: name in Now().pods && BrokenAtWork(old(Now()), name) ==>
                name in seen && (RunsBroken(seen[name]) || seen[name].phase.PodFailed?)
      // No pod is deleted unless it was seen unable to go on.
      ensures AllBroken(old(cluster.podApi.deletions), cluster.podApi.deletions, seen)
      ensures forall name :: Deleted(old(cluster.podApi.deletions), cluster.podApi.deletions, name) ==>
                name in seen && (RunsBroken(seen[name]) || WaitsForever(seen[name]))
      // So never a failed pod without a waiting container; and with no failing call every pod that was seen so and
      // held a message is.
      ensures forall name :: name in seen && seen[name].phase.PodFailed? && NoneWaits(seen[name]) ==>
                !Deleted(old(cluster.podApi.deletions), cluster.podApi.deletions, name)
      ensures old(Calm()) ==> forall name ::
                name in seen && OwnedBy(old(Now()).work, name) != {} && !seen[name].phase.PodSucceeded? ==>
                  (RunsBroken(seen[name]) || WaitsForever(seen[name]) ==>
                     Deleted(old(cluster.podApi.deletions), cluster.podApi.deletions, name))
    {
      hide Inv, Seeded, Legal, Exec, SmoothRun, PastGrows, Loose;
      hide Parked, Drift, Live, Seen, IsOver, StillHolds, KeepsOthers, Handled;
      hide JudgedByHandler, AllBroken, OnlyBroken, Broken, Deleted, RunsBroken, WaitsForever, NoneWaits;
      hide BrokenAtWork;
      ghost var first := Now();
      StillHoldsReflexive(first);
      var list: map<string, Pod>;
      ok, list := cluster.ListPods();
      seen := list;
      DriftHolds(first, Now());
      DriftKeeps(first, Now());
      NoDeletionYet(cluster.podApi.deletions, list);
      if !ok {
        return;
      }
      ghost var listed := Now();
      GrowsReflexive(listed);
      ListedPodsAreSeen(Now(), maxAttempts);
      var todo := list.Keys;
      while todo != {}
        invariant Valid() && PastGrows(first, Now())
        invariant old(cluster.run) <= cluster.run && old(cluster.queue.idle) <= cluster.queue.idle
        invariant PastGrows(listed, Now())
        invariant Parked(Now()) <= Parked(first)
        invariant AllBroken(old(cluster.podApi.deletions), cluster.podApi.deletions, list)
        invariant old(Calm()) ==> forall n ::
          n in list.Keys - todo && Broken(list[n]) && OwnedBy(first.work, n) != {} ==>
            Deleted(old(cluster.podApi.deletions), cluster.podApi.deletions, n)
        invariant todo <= list.Keys
        invariant forall n :: n in todo ==> Seen(Now(), n, list[n]) && StillHolds(first, Now(), n)
        invariant old(Calm()) ==> Calm()
        invariant old(Calm()) ==> forall n :: n in list.Keys - todo && IsOver(list[n]) ==>
          Handled(first, Now(), n, list[n])
        decreases todo
      {
        var name :| name in todo;
        ghost var before := Now();
        ghost var deletions := cluster.podApi.deletions;
        HeldIsOwned(first, before, name);
        HandlePod(name, list[name]);
        DeletionsGrow(old(cluster.podApi.deletions), deletions, cluster.podApi.deletions, name, list[name], list);
        todo := todo - {name};
        OthersGrow(first, before, Now(), name);
        GrowsTransitive(listed, before, Now());
        forall n | n in todo ensures Seen(Now(), n, list[n]) && StillHolds(first, Now(), n) {
          SeenIsStable(before, Now(), n, list[n]);
          OthersHold(first, before, Now(), name, n);
        }
        if old(Calm()) {
          forall n | n in list.Keys - todo && IsOver(list[n]) ensures Handled(first, Now(), n, list[n]) {
            if n == name {
              HandledNow(first, before, Now(), n, list[n]);
            } else {
              HandledStays(first, before, Now(), n, list[n]);
            }
          }
        }
      }
      EndedAreListed(first, listed, Now(), maxAttempts);
      BrokenAreListed(first, listed, Now(), maxAttempts);
      DeletedWereBroken(old(cluster.podApi.deletions), cluster.podApi.deletions, list);
      BrokenFields(list);
      if old(Calm()) {
        OutcomesExclude(cluster.start, cluster.run, maxAttempts);
        ListIsJudged(first, listed, Now(), maxAttempts);
      }
    }

    // ------------------------------------------------------------ the reclaimer

    // A claimed message whose work is not done: written once more, or dead-lettered, and then acknowledged.
    method WriteOffReclaimed(id: nat, file: string, attempts: int) returns (ok: bool)
      requires Valid() && id in Now().work.pel && Now().work.pel[id] == RECLAIMER && id in Now().past.items
      requires file == Now().past.items[id].file && attempts == Now().past.items[id].attempts + 1
      modifies cluster, cluster.queue
      ensures Valid() && Keeps(old(Now()), Now(), {id})
      ensures old(cluster.run) <= cluster.run && old(cluster.queue.idle) <= cluster.queue.idle
      ensures Parked(Now()) <= old(Parked(Now()))
      ensures ok ==> id !in Now().work.pel && id <= Now().work.delivered && id in Now().past.covered
      ensures old(Calm()) && id !in old(Now()).past.covered ==> Calm() && ok
    {
      hide Inv, Seeded, Legal, Exec, SmoothRun, PastGrows, Loose, Parked, Keeps, Live, Alive;
      ghost var first := Now();
      if attempts < maxAttempts {
        ok := cluster.Write(Retry(id), true, file, attempts);
      } else {
        ok := cluster.Write(DeadLetter(id), false, file, attempts);
      }
      ghost var written := Now();
      KeepsWeaker(first, written, {}, {id});
      if !ok {
        return;
      }
      StillPending(first, written, id);
      ok := cluster.Ack(id, AckCovered(id));
      KeepsTransitive(first, written, Now(), {id});
      CoveredGrows(written, Now(), {id});
    }

    // One turn of the loop over the claimed messages.
    method ProcessReclaimed(id: nat, values: Body, workDone: bool)
      requires Valid() && Reclaimable(Now(), id, values, workDone)
      modifies cluster, cluster.queue
      ensures Valid() && Keeps(old(Now()), Now(), {id})
      ensures old(cluster.run) <= cluster.run && old(cluster.queue.idle) <= cluster.queue.idle
      ensures Parked(Now()) <= old(Parked(Now()))
      ensures old(Calm()) && id !in old(Now()).past.covered ==> Calm() && Reclaimed(Now(), id, workDone)
    {
      hide Inv, Seeded, Legal, Exec, SmoothRun, PastGrows, Loose, Parked, Keeps, Live, Finished, Alive;
      ghost var first := Now();
      ReclaimableItem(first, id, values, workDone, maxAttempts);
      KeepsReflexive(first);
      KeepsWeaker(first, first, {}, {id});
      var file := values.file;
      var ok;
      if workDone {
        ok := cluster.Ack(id, AckDone(id));
      } else {
        var attempts := ParseAttempts(values.attempts, 0);
        ParseAttemptsOfItoa(first.past.items[id].attempts, 0);
        attempts := attempts + 1;
        ok := WriteOffReclaimed(id, file, attempts);
      }
      ghost var acked := Now();
      if !ok {
        return;
      }
      AckedIsFinished(first, acked, id, workDone);
      var deleted := cluster.DeleteMessage(id);
      KeepsWeaker(acked, Now(), {}, {id});
      KeepsTransitive(first, acked, Now(), {id});
      FinishedStays(acked, Now(), id, workDone);
    }

    // Deliveries idle for too long whose pod is not running any more, with the consumer of each, and the
    // pods that have succeeded.
    method FindOrphans() returns (ok: bool, ids: seq<nat>, consumers: map<nat, string>, succeeded: set<string>)
      requires Valid()
      modifies cluster, cluster.queue
      ensures Valid() && Keeps(old(Now()), Now(), {})
      ensures old(cluster.run) <= cluster.run && old(cluster.queue.idle) <= cluster.queue.idle
      ensures Parked(Now()) == old(Parked(Now()))
      ensures old(Calm()) ==> Calm() && ok
      ensures ok ==> Ascending(ids) && forall id :: id in ids <==> id in consumers
      ensures ok ==> forall id :: id in ids ==> id in cluster.queue.idle
      // At the moment of the pod list none of the consumers is alive.
      ensures ok ==> Enabled(Now(), Take(set id | id in ids), maxAttempts)
      ensures ok && ids != [] ==> succeeded == set n | n in Now().pods && Now().pods[n].phase.PodSucceeded?
      ensures ok ==> OwnersAre(Now(), consumers)
      ensures ok ==> forall id :: Offered(old(Now()), old(cluster.queue.idle), id) ==>
                (id in ids <==> !AliveIn(Now(), old(Now()).work.pel[id]))
    {
      hide Inv, Seeded, Legal, Exec, SmoothRun, PastGrows, Loose, Parked;
      hide Drift, Keeps, Live, Enabled, Ascending, Least, Offered, OwnersAre, Alive;
      ids, consumers, succeeded := [], map[], {};
      ghost var first := Now();
      ghost var idle := cluster.queue.idle;
      var pending, list, running;
      ok, pending := cluster.GetPendingEntryDetails(100);
      ghost var asked := Now();
      DriftKeeps(first, asked);
      if !ok {
        return;
      }
      OfferedAreAnswered(first, asked, idle, cluster.queue.Stale(), PendingIds(pending), maxAttempts);
      if |pending| == 0 {
        NoOwners(Now(), maxAttempts);
        return;
      }
      LeastAscends(PendingIds(pending), cluster.queue.Stale(), 100);
      ok, list := cluster.ListPods();
      ghost var listed := Now();
      DriftKeeps(asked, listed);
      KeepsTransitive(first, asked, listed, {});
      if !ok {
        return;
      }
      running, succeeded := ClassifyPods(list);
      ids, consumers := FilterEntries(pending, running);
      KeepsGrows(first, listed, {});
      OfferedAreFiltered(first, asked, listed, idle, pending, running, consumers);
      OwnersAreDead(asked, listed, pending, running, ids, consumers, maxAttempts);
    }

    // `listed` is the state in which the pods were listed.
    method RunReclaimer() returns (ok: bool, ghost taken: set<nat>, ghost listed: World)
      requires Valid()
      modifies cluster, cluster.queue
      ensures Valid() && Keeps(old(Now()), Now(), taken) && old(cluster.run) <= cluster.run
      ensures old(Calm()) ==> Calm() && ok
      // With no failing call, every message taken is settled and deleted, none is left with the reclaimer,
      // and every message that was due when the pass began has been settled.
      ensures old(Calm()) ==> forall id :: id in taken ==> Settled(Now(), id) && id !in Now().work.entries
      ensures old(Calm()) && old(Parked(Now())) == {} ==> Parked(Now()) == {}
      ensures old(Calm()) ==> forall id :: Due(old(Now()), old(cluster.queue.idle), id) ==> id in taken
      // Of the messages within reach it takes exactly those whose consumer the pod list does not shield; a pod
      // that runs with a broken container when the pass begins does not shield its message.
      ensures old(Calm()) ==> forall id :: Offered(old(Now()), old(cluster.queue.idle), id) ==>
                (id in taken <==> !Shielded(listed.pods, old(Now()).work.pel[id]))
      ensures old(Calm()) ==> forall id :: Offered(old(Now()), old(cluster.queue.idle), id) ==>
                (BrokenAtWork(old(Now()), old(Now()).work.pel[id]) ==> id in taken)
      // A message taken is acknowledged as successful iff its consumer is listed as succeeded then, and is
      // written off otherwise: finished work is repeated iff the list no longer shows whose it is.
      ensures Keeps(old(Now()), listed, {}) && PastGrows(listed, Now())
      ensures old(Calm()) ==> forall id :: id in taken ==> Judged(listed, Now(), id)
      // So a message already parked with the reclaimer is written off, whatever its pod did.
      ensures old(Calm()) ==> forall id :: id in taken && id in old(Parked(Now())) ==>
                id in Now().past.covered && id !in Now().past.done
    {
      hide Inv, Seeded, Legal, Exec, SmoothRun, PastGrows, Loose, Parked, Keeps;
      hide Live, Enabled, Ascending, Due, Offered, Reclaimed, Settled, FromStream, OwnersAre, Alive;
      hide Judged, Shielded, RunsBroken, BrokenAtWork;
      taken := {};
      ghost var first := Now();
      ghost var idle := cluster.queue.idle;
      var ids, consumers, succeeded, messages;
      ok, ids, consumers, succeeded := FindOrphans();
      listed := Now();
      GrowsReflexive(listed);
      KeepsGrows(first, listed, {});
      OrphansAre(first, listed, idle, maxAttempts);
      OfferedAreIdle(first, idle);
      if !ok || |ids| == 0 {
        return;
      }
      ok, messages, taken := cluster.ClaimMessages(ids);
      ghost var claimed := Now();
      KeepsWeaker(first, listed, {}, taken);
      KeepsTransitive(first, listed, claimed, taken);
      KeepsGrows(listed, claimed, taken);
      if !ok {
        return;
      }
      TakenAreReclaimable(listed, claimed, consumers, succeeded, messages, taken, maxAttempts);
      ProcessAll(messages, consumers, succeeded);
      KeepsWeaker(claimed, Now(), Members(Ids(messages)), taken);
      KeepsTransitive(first, claimed, Now(), taken);
      KeepsTransitive(listed, claimed, Now(), taken);
      KeepsGrows(listed, Now(), taken);
      if old(Calm()) {
        AllSettled(Now(), messages, consumers, succeeded, taken);
        OutcomesExclude(cluster.start, cluster.run, maxAttempts);
        AllJudged(listed, Now(), ids, messages, consumers, succeeded, taken, maxAttempts);
      }
    }

    method ProcessAll(messages: seq<Message>, consumers: map<nat, string>, succeeded: set<string>)
      requires Valid()
      requires forall i :: 0 <= i < |messages| ==>
                 messages[i].id in consumers
                 && Reclaimable(Now(), messages[i].id, messages[i].values, consumers[messages[i].id] in succeeded)
      requires Ascending(Ids(messages))
      modifies cluster, cluster.queue
      ensures Valid() && Keeps(old(Now()), Now(), Members(Ids(messages)))
      ensures old(cluster.run) <= cluster.run && old(cluster.queue.idle) <= cluster.queue.idle
      ensures Parked(Now()) <= old(Parked(Now()))
      ensures old(Calm()) ==> Calm()
      ensures old(Calm()) ==> forall i :: 0 <= i < |messages| ==>
                Reclaimed(Now(), messages[i].id, consumers[messages[i].id] in succeeded)
                && messages[i].id !in Parked(Now())
    {
      hide Inv, Seeded, Legal, Exec, SmoothRun, PastGrows, Loose, Parked, Keeps, Live, Reclaimable, Reclaimed;
      ghost var first := Now();
      ghost var all := Members(Ids(messages));
      KeepsReflexive(first);
      KeepsWeaker(first, first, {}, all);
      for i := 0 to |messages|
        invariant Valid() && Keeps(first, Now(), all)
        invariant old(cluster.run) <= cluster.run && old(cluster.queue.idle) <= cluster.queue.idle
        invariant Parked(Now()) <= Parked(first)
        invariant old(Calm()) ==> Calm()
        invariant forall j :: i <= j < |messages| ==>
          Reclaimable(Now(), messages[j].id, messages[j].values, consumers[messages[j].id] in succeeded)
        invariant old(Calm()) ==> forall j :: 0 <= j < i ==>
          Reclaimed(Now(), messages[j].id, consumers[messages[j].id] in succeeded)
      {
        ghost var before := Now();
        var id := messages[i].id;
        if Calm() {
          ReclaimableNotCovered(before, id, messages[i].values, consumers[id] in succeeded, maxAttempts);
        }
        ProcessReclaimed(id, messages[i].values, consumers[id] in succeeded);
        KeepsGrows(before, Now(), {id});
        assert Ids(messages)[i] in all;
        KeepsWeaker(before, Now(), {id}, all);
        KeepsTransitive(first, before, Now(), all);
        forall j | i < j < |messages|
          ensures Reclaimable(Now(), messages[j].id, messages[j].values, consumers[messages[j].id] in succeeded)
        {
          assert Ids(messages)[i] < Ids(messages)[j];
          ReclaimableStays(before, Now(), id, messages[j].id, messages[j].values,
                           consumers[messages[j].id] in succeeded);
        }
        if old(Calm()) {
          forall j | 0 <= j < i ensures Reclaimed(Now(), messages[j].id, consumers[messages[j].id] in succeeded) {
            ReclaimedStays(before, Now(), messages[j].id, consumers[messages[j].id] in succeeded);
          }
        }
      }
      if old(Calm()) {
        forall i | 0 <= i < |messages| ensures messages[i].id !in Parked(Now()) {
          ReclaimedIsSettled(Now(), messages[i].id, consumers[messages[i].id] in succeeded);
        }
      }
    }

    // ------------------------------------------------------------ status and verdict

    // The counts from the three metrics, read one after another; a failed read counts as 0.
    method UpdateStatus() returns (ghost metrics: Metrics, ghost claims: int)
      requires Valid() && counts.totalFiles == Total()
      modifies this`counts, cluster, cluster.queue
      ensures Valid() && counts.totalFiles == Total()
      ensures old(cluster.run) <= cluster.run && old(cluster.queue.idle) <= cluster.queue.idle
      ensures Drift(old(Now()), Now())
      ensures counts == Reported(Total(), metrics) && claims >= 0
      // Success is what is left of the total, and never negative, whatever was read.
      ensures counts.succeeded >= 0
      ensures counts.queued + counts.running + counts.failed >= counts.totalFiles ==> counts.succeeded == 0
      ensures counts.queued + counts.running + counts.failed <= counts.totalFiles ==>
                counts.queued + counts.running + counts.failed + counts.succeeded == counts.totalFiles
      ensures old(Calm()) ==> Calm() && Full(metrics)
      // Pods that claim while the counts are read move files from queued to running, never back.
      ensures metrics.lag.Some? ==> Lag(Now().work) <= metrics.lag.value <= old(Lag(Now().work))
      ensures metrics.pending.Some? ==> old(|Now().work.pel|) <= metrics.pending.value <= |Now().work.pel|
      ensures metrics.letters.Some? ==> metrics.letters.value == |Now().dlq.entries|
      // Success is never over-reported.
      ensures Full(metrics) ==> counts.succeeded <= |Now().past.done|
      // Without failures the counts add up, but for messages claimed between the first two reads.
      ensures old(Calm()) ==>
                counts.queued + counts.running + counts.failed + |Now().past.done| == counts.totalFiles + claims
      ensures old(Calm()) && claims == 0 ==> counts.succeeded == |Now().past.done|
      // Two zeros that were read mean a drained queue.
      ensures WaitingRead(metrics) && counts.queued == 0 && counts.running == 0 ==> Drained(Now())
    {
      hide Inv, Seeded, Legal, Exec, SmoothRun, Loose, Drift, Drained, Undelivered, Lag;
      ghost var first := Now();
      var lagOk, queued := cluster.GetConsumerGroupLag();
      ghost var t1 := Now();
      var pendingOk, running := cluster.GetPendingCount();
      ghost var t2 := Now();
      var dlqOk, failed := cluster.GetDlqLength();
      ghost var t3 := Now();
      metrics := Metrics(if lagOk then Some(queued) else None, if pendingOk then Some(running) else None,
                         if dlqOk then Some(failed) else None);
      var succeeded := counts.totalFiles - queued - running - failed;
      if succeeded < 0 {
        succeeded := 0;
      }
      counts := FileCounts(counts.totalFiles, queued, running, succeeded, failed);
      claims := |t2.work.pel| - |t1.work.pel|;
      StatusFacts(cluster.start, cluster.run, first, t1, t2, t3, metrics, maxAttempts);
    }

    // The two steps of a pass that work on the queue; a failure of either is only logged.
    method WorkOff()
      requires Valid()
      modifies cluster, cluster.queue, cluster.podApi
      ensures Valid() && old(cluster.run) <= cluster.run && PastGrows(old(Now()), Now())
      ensures old(Calm()) ==> Calm() && WorkedOff(old(Now()), old(cluster.queue.idle), Now())
    {
      hide Inv, Seeded, Legal, Exec, SmoothRun, Loose, Parked, PastGrows, Handled, Keeps, Due, Settled, Ended;
      hide AllBroken, Deleted, JudgedByHandler, Judged, Offered, Shielded, BrokenAtWork, RunsBroken, WaitsForever;
      hide NoneWaits, IsOver;
      ghost var first := Now();
      ghost var idle := cluster.queue.idle;
      var handledOk, seen := HandleCompletedPods();
      ghost var handled := Now();
      ghost var idleThen := cluster.queue.idle;
      var reclaimedOk, taken, listed := RunReclaimer();
      KeepsGrows(handled, Now(), taken);
      GrowsTransitive(first, handled, Now());
      if old(Calm()) {
        EndedAreHandled(first, handled, Now(), seen, maxAttempts);
        DueAreSettled(first, idle, handled, idleThen, Now(), taken, maxAttempts);
      }
    }

    // The order of a reconcile pass once the Job exists. The Job is looked up twice.
    // `podsGone`: no pod of a failed Job claims any more.
    method ReconcileBatch(hasJob: bool, job1: JobLookup, job2: JobLookup, podsGone: bool)
      returns (verdict: Verdict, ghost metrics: Metrics)
      requires Valid() && counts.totalFiles == Total()
      modifies this`counts, cluster, cluster.queue, cluster.podApi
      ensures old(cluster.run) <= cluster.run
      ensures verdict.RunFailed? <==> CheckFailure(hasJob, job1) == Some(true)
      ensures verdict.RunCompleted? <==> !verdict.RunFailed? && CheckCompletion(counts, hasJob, job2) == Some(true)
      // Any other verdict leaves the run legal, and a pass without failing calls leaves nothing half done.
      ensures !verdict.RunFailed? ==> Valid() && counts.totalFiles == Total()
      ensures !verdict.RunFailed? && old(Calm()) ==> Calm() && Full(metrics)
      // The status it leaves: what was read, success never over-reported, nothing unaccounted for.
      ensures counts == Reported(Total(), metrics) && counts.succeeded >= 0
      ensures counts.queued + counts.running + counts.failed >= counts.totalFiles ==> counts.succeeded == 0
      ensures counts.queued + counts.running + counts.failed <= counts.totalFiles ==>
                counts.queued + counts.running + counts.failed + counts.succeeded == counts.totalFiles
      ensures !verdict.RunFailed? && Full(metrics) ==>
                counts.failed == |Now().dlq.entries| && counts.succeeded <= |Now().past.done|
      ensures !verdict.RunFailed? && metrics.lag.Some? ==> Lag(Now().work) <= counts.queued
      ensures !verdict.RunFailed? && old(Calm()) ==>
                counts.queued + counts.running + counts.failed + |Now().past.done| >= counts.totalFiles
      // Then every pod that had ended when the pass began, unless gone since, has had its message handled, and
      // every message that was due for reclaiming then is settled now.
      ensures !verdict.RunFailed? && old(Calm()) ==> forall name :: name in Now().pods && Ended(old(Now()), name) ==>
                Handled(old(Now()), Now(), name, old(Now()).pods[name])
      ensures !verdict.RunFailed? && old(Calm()) ==> forall id ::
                Due(old(Now()), old(cluster.queue.idle), id) ==> Settled(Now(), id)
      // A completed run is complete if the two zeros behind it were read: every seeded file succeeded or is in
      // the dead letter queue.
      ensures verdict.RunCompleted? && WaitingRead(metrics) ==>
                forall f :: Seeds(cluster.start, f) ==> Succeeded(Now(), f) || HasLetter(Now().dlq.entries, f)
      // A failed run is flushed: messages and letters keep to their bounds, and with no failing call the stream
      // is empty.
      ensures verdict.RunFailed? ==> Sound(cluster.queue, maxAttempts)
      ensures verdict.RunFailed? && old(Calm()) ==>
                cluster.queue.work.entries == map[] && (podsGone ==> cluster.queue.work.pel == map[])
      ensures verdict.RunFailed? && old(Calm()) ==>
                && Seeded(cluster.start, maxAttempts) && Legal(cluster.start, cluster.run, maxAttempts)
                && forall f :: FlushedRun(Exec(cluster.start, cluster.run), cluster.queue.dlq.entries, f, maxAttempts)
    {
      hide Inv, Seeded, Legal, Exec, SmoothRun, Loose, Seeds, Handled, Drift, Due, Settled, Ended, FlushedRun;
      hide Reported, Within;
      ghost var first := Now();
      ghost var idle := cluster.queue.idle;
      WorkOff();
      ghost var worked := Now();
      ghost var claims;
      metrics, claims := UpdateStatus();
      ghost var settled := Now();
      if old(Calm()) {
        WorkStays(first, idle, worked, settled, maxAttempts);
      }
      var failure := CheckFailure(hasJob, job1);
      if failure == Some(true) {
        ReadyToFlush(settled, maxAttempts);
        FlushFailedRun(podsGone);
        return RunFailed, metrics;
      }
      var completion := CheckCompletion(counts, hasJob, job2);
      if completion == Some(true) {
        if WaitingRead(metrics) {
          CompletedRun(cluster.start, cluster.run, maxAttempts);
        }
        return RunCompleted, metrics;
      }
      verdict := Progressing;
    }

    method FlushFailedRun(podsGone: bool)
      requires Valid() && Flushable(Now(), maxAttempts)
      modifies cluster.queue
      ensures Sound(cluster.queue, maxAttempts)
      ensures old(cluster.queue.faultsLeft) == 0 ==>
                cluster.queue.work.entries == map[] && (podsGone ==> cluster.queue.work.pel == map[])
      ensures old(cluster.queue.faultsLeft) == 0 ==> forall f ::
                FlushedRun(old(Now()), cluster.queue.dlq.entries, f, maxAttempts)
    {
      hide Inv, Seeded, Legal, Exec, SmoothRun, Final, Rewritten, FlushedRun;
      ghost var end := Now();
      InvLimit(end, maxAttempts);
      RunIsWithin(end, maxAttempts);
      WithinReads(end.work, end.dlq, maxAttempts, maxAttempts);
      ghost var drained, final, missed := FlushOutstandingWork(cluster.queue, maxAttempts, podsGone);
      PartIsWithin(end.work, end.dlq, cluster.queue.work, cluster.queue.dlq, maxAttempts);
      if old(cluster.queue.faultsLeft) == 0 {
        forall f ensures FlushedRun(end, cluster.queue.dlq.entries, f, maxAttempts) {
          FlushOfRun(cluster.start, cluster.run, maxAttempts, cluster.queue.dlq.entries, final, f);
        }
      }
    }
  }

  datatype JobLookup = NotFound | LookupError | Job(complete: bool, failed: bool)

  datatype Verdict = Progressing | RunCompleted | RunFailed

  datatype FileCounts = FileCounts(totalFiles: int, queued: int, running: int, succeeded: int, failed: int)

  // The metrics behind a status; None is a read that failed.
  datatype Metrics = Metrics(lag: Option<nat>, pending: Option<nat>, letters: Option<nat>)

  function OrZero(read: Option<nat>): nat {
    if read.Some? then read.value else 0
  }

  // The status made of these metrics: a failed one counts as 0, and success is what is left of the total.
  function Reported(total: int, metrics: Metrics): (counts: FileCounts)
    ensures counts.totalFiles == total && counts.queued == OrZero(metrics.lag)
    ensures counts.running == OrZero(metrics.pending) && counts.failed == OrZero(metrics.letters)
    ensures counts.succeeded >= 0 && (counts.queued + counts.running + counts.failed >= total ==> counts.succeeded == 0)
    ensures counts.succeeded > 0 ==> counts.queued + counts.running + counts.succeeded + counts.failed == total
  {
    var (queued, running, failed) := (OrZero(metrics.lag), OrZero(metrics.pending), OrZero(metrics.letters));
    var rest := total - queued - running - failed;
    FileCounts(total, queued, running, if rest < 0 then 0 else rest, failed)
  }

  predicate WaitingRead(metrics: Metrics) {
    metrics.lag.Some? && metrics.pending.Some?
  }

  predicate Full(metrics: Metrics) {
    WaitingRead(metrics) && metrics.letters.Some?
  }

  // Nothing undelivered, nothing pending.
  ghost predicate Drained(w: World) {
    Undelivered(w.work) == {} && w.work.pel == map[]
  }

  // None is an error: the Job could not be read.
  function CheckCompletion(counts: FileCounts, hasJob: bool, job: JobLookup): (r: Option<bool>)
    ensures r == Some(true) <==> counts.queued == 0 && counts.running == 0 && hasJob && job.Job? && job.complete
    ensures r == None <==> counts.queued == 0 && counts.running == 0 && hasJob && !job.Job?
  {
    if counts.queued == 0 && counts.running == 0 && hasJob then
      match job
      case Job(complete, _) => Some(complete)
      case _ => None
    else
      Some(false)
  }

  // A deleted Job has not failed yet.
  function CheckFailure(hasJob: bool, job: JobLookup): (r: Option<bool>)
    ensures r == Some(true) <==> hasJob && job.Job? && job.failed
    ensures r == None <==> hasJob && job.LookupError?
  {
    if !hasJob then Some(false)
    else
      match job
      case NotFound => Some(false)
      case LookupError => None
      case Job(_, failed) => Some(failed)
  }

  ghost predicate Succeeded(w: World, f: string) {
    exists id :: id in w.past.done && id in w.past.items && w.past.items[id].file == f
  }

  // What a flush needs of a run: bounded messages and letters, and bodies for all pending messages.
  ghost predicate Flushable(w: World, max: int) {
    && StreamOk(w.work) && StreamOk(w.dlq) && 0 <= max <= MAX_INT
    && Bounded(w.dlq.entries, max)
    && (forall id :: id in w.work.entries ==> Attempts(w.work.entries[id], max) <= max)
    && w.work.pel.Keys <= w.work.entries.Keys
  }

  lemma ReadyToFlush(w: World, max: int)
    requires Inv(w, max)
    ensures Flushable(w, max)
  {
    forall id | id in w.work.entries ensures Attempts(w.work.entries[id], max) <= max {
      assert id in w.past.items;
      ParseAttemptsOfItoa(w.past.items[id].attempts, max);
    }
    forall id | id in w.work.pel ensures id in w.work.entries {
      assert Live(w, id);
    }
  }

  lemma InvLimit(w: World, max: int)
    requires Inv(w, max)
    ensures 1 <= max <= 0x7FFF_FFFF
  {
  }

  // A run before its flush is within the bounds.
  lemma RunIsWithin(w: World, max: int)
    requires Inv(w, max)
    ensures Within(w.work, w.dlq, max)
  {
    forall id | id in w.work.entries ensures Readable(w.work.entries[id], max) {
      assert id in w.past.items;
    }
  }

  // What three reads at t1, t2 and t3 say about the state they leave.
  lemma StatusFacts(start: World, run: seq<Label>, first: World, t1: World, t2: World, t3: World, m: Metrics, max: int)
    requires Seeded(start, max) && Legal(start, run, max) && Exec(start, run) == t3
    requires Inv(t1, max) && Inv(t2, max) && Inv(t3, max) && Drift(first, t1) && Drift(t1, t2) && Drift(t2, t3)
    requires m.lag.Some? ==> m.lag.value == Lag(t1.work)
    requires m.pending.Some? ==> m.pending.value == |t2.work.pel|
    requires m.letters.Some? ==> m.letters.value == |t3.dlq.entries|
    ensures Drift(first, t3) && Loose(t3) == Loose(first)
    ensures m.lag.Some? ==> Lag(t3.work) <= m.lag.value <= Lag(first.work)
    ensures m.pending.Some? ==> |first.work.pel| <= m.pending.value <= |t3.work.pel|
    ensures |t2.work.pel| >= |t1.work.pel|
    ensures var counts := Reported(|start.work.entries|, m);
      && (Full(m) ==> counts.succeeded <= |t3.past.done|)
      && (Full(m) && SmoothRun(start, run) && Loose(t3) == {} ==>
            var claims := |t2.work.pel| - |t1.work.pel|;
            && counts.queued + counts.running + counts.failed + |t3.past.done| == counts.totalFiles + claims
            && (claims == 0 ==> counts.succeeded == |t3.past.done|))
      && (WaitingRead(m) && counts.queued == 0 && counts.running == 0 ==> Drained(t3))
  {
    hide Inv, Seeded, Legal, Exec, SmoothRun, Loose, Drift, Undelivered, Lag;
    DriftCounts(first, t1);
    DriftCounts(t1, t2);
    DriftCounts(t2, t3);
    DriftTransitive(t1, t2, t3);
    DriftTransitive(first, t1, t3);
    ReadsAddUp(t1, t2, t3, max);
    SuccessBound(start, run, max);
  }

  // Lag read at t1 and pending read at t2 count every waiting message, those claimed in between twice.
  lemma ReadsAddUp(t1: World, t2: World, t3: World, max: int)
    requires Inv(t1, max) && Inv(t2, max) && Inv(t3, max) && Drift(t1, t2) && Drift(t2, t3)
    ensures Lag(t1.work) + |t2.work.pel| == Lag(t3.work) + |t3.work.pel| + (|t2.work.pel| - |t1.work.pel|)
    ensures |t2.work.pel| >= |t1.work.pel|
    ensures t2.dlq == t3.dlq
    ensures Lag(t1.work) == 0 && |t2.work.pel| == 0 ==> Undelivered(t3.work) == {} && t3.work.pel == map[]
  {
    hide Inv;
    WaitingIsLagPlusPending(t1, max);
    WaitingIsLagPlusPending(t2, max);
    WaitingIsLagPlusPending(t3, max);
    assert WaitingIds(t1) == WaitingIds(t2) == WaitingIds(t3);
    Subset(t1.work.pel.Keys, t2.work.pel.Keys);
    assert |t1.work.pel| == |t1.work.pel.Keys| && |t2.work.pel| == |t2.work.pel.Keys|;
  }

  lemma DriftCounts(w: World, w': World)
    requires Drift(w, w')
    ensures Lag(w'.work) <= Lag(w.work) && |w.work.pel| <= |w'.work.pel|
    ensures Loose(w') == Loose(w)
  {
    DriftKeeps(w, w');
    Subset(Undelivered(w'.work), Undelivered(w.work));
    Subset(w.work.pel.Keys, w'.work.pel.Keys);
    assert |w.work.pel| == |w.work.pel.Keys| && |w'.work.pel| == |w'.work.pel.Keys|;
  }

  lemma SuccessBound(start: World, run: seq<Label>, max: int)
    requires Seeded(start, max) && Legal(start, run, max)
    ensures var end := Exec(start, run);
      && |start.work.entries| - Lag(end.work) - |end.work.pel| - |end.dlq.entries| <= |end.past.done|
      && (SmoothRun(start, run) && Loose(end) == {} ==>
            |start.work.entries| - Lag(end.work) - |end.work.pel| - |end.dlq.entries| == |end.past.done|)
  {
    hide Inv, Seeded, Legal, SmoothRun;
    SuccessIsNotOverReported(start, run, max);
    var end := Exec(start, run);
    assert Loose(end) == {} ==> Tidy(end) by {
      assert forall id :: id in end.past.covered && Live(end, id) ==> id in Loose(end);
    }
  }

  /** The completion verdict is sound. */
  lemma CompletedRun(start: World, run: seq<Label>, max: int)
    requires Seeded(start, max) && Legal(start, run, max)
    requires Drained(Exec(start, run))
    ensures forall f :: Seeds(start, f) ==> Succeeded(Exec(start, run), f) || HasLetter(Exec(start, run).dlq.entries, f)
  {
    forall f | Seeds(start, f) ensures Succeeded(Exec(start, run), f) || HasLetter(Exec(start, run).dlq.entries, f) {
      DrainedIsFinished(start, run, max, f);
    }
  }

  lemma CoveredGrows(w: World, w': World, except: set<nat>)
    requires Keeps(w, w', except)
    ensures w.past.covered <= w'.past.covered
  {
  }

  lemma DriftResolves(w: World, w': World, id: nat)
    requires Drift(w, w') && id !in w.work.pel && id <= w.work.delivered
    ensures forall succeeded :: Resolved(w, id, succeeded) ==> Resolved(w', id, succeeded)
  {
  }

  lemma KeepsImpliesOthers(w: World, w': World, except: set<nat>, name: string)
    requires Keeps(w, w', except)
    requires forall id :: id in except && id in w.work.pel ==> w.work.pel[id] == name
    ensures KeepsOthers(w, w', name) && PastGrows(w, w')
  {
  }

  lemma NothingPending(first: World, asked: World, name: string, pod: Pod)
    requires Drift(first, asked) && Least([], OwnedBy(asked.work, name), 1)
    ensures Handled(first, asked, name, pod) && OwnedBy(first.work, name) == {}
  {
    forall id | id in first.work.pel ensures first.work.pel[id] != name {
      assert id in OwnedBy(asked.work, name) ==> id in [];
    }
  }

  lemma HeadIsOwned(w: World, name: string, ids: seq<nat>)
    requires ids != [] && Least(ids, OwnedBy(w.work, name), 1)
    ensures ids[0] in OwnedBy(w.work, name)
  {
    assert ids[0] in ids;
  }

  lemma StillOwned(first: World, asked: World, read: World, name: string, pod: Pod, id: nat, max: int)
    requires Seen(first, name, pod) && IsOver(pod) && Keeps(first, read, {}) && Drift(asked, read)
    requires id in OwnedBy(asked.work, name) && Inv(read, max)
    ensures id in OwnedBy(read.work, name) && id in read.work.entries && Carries(read, id, read.work.entries[id])
    ensures 0 <= read.past.items[id].attempts <= MAX_INT
    ensures pod.phase.PodSucceeded? ==> Enabled(read, AckDone(id), max)
    ensures ShowsFailure(pod) ==> WrittenOff(read, id)
    ensures id in read.past.covered ==> id in Loose(read)
  {
    PodMessage(read, max, name, id);
  }

  lemma OnlyThatOne(first: World, read: World, end: World, name: string, pod: Pod, id: nat, max: int)
    requires Seen(first, name, pod) && Keeps(first, read, {}) && Inv(read, max) && id in OwnedBy(read.work, name)
    requires Keeps(first, end, {id}) && Keeps(read, end, {id})
    ensures KeepsOthers(first, end, name)
    ensures Resolved(end, id, pod.phase.PodSucceeded?) ==> Handled(first, end, name, pod)
  {
    hide Inv, Keeps, PastGrows, Carries, KeepsOthers, Handled, Resolved;
    InvParts(read, max);
    PodMessage(read, max, name, id);
    OwnerThen(first, read, name, id);
    KeepsImpliesOthers(first, end, {id}, name);
    KnownThen(read, end, id);
    OneIsHandled(first, end, name, pod, id);
  }

  lemma OwnerThen(first: World, read: World, name: string, id: nat)
    requires Keeps(first, read, {}) && id in OwnedBy(read.work, name)
    requires forall other :: other in OwnedBy(read.work, name) ==> other == id
    ensures forall x :: x in first.work.pel && first.work.pel[x] == name ==> x == id
    ensures id in first.work.pel ==> first.work.pel[id] == name
  {
    hide PastGrows;
    forall x | x in first.work.pel && first.work.pel[x] == name ensures x == id {
      assert x in OwnedBy(read.work, name);
    }
  }

  lemma KnownThen(read: World, end: World, id: nat)
    requires Keeps(read, end, {id}) && StreamOk(read.work) && OwnersOk(read)
    requires id in read.work.pel && id in read.past.items
    ensures id in end.past.items && id <= end.work.delivered
  {
    hide PodsPass, OwnersOk;
  }

  lemma OneIsHandled(first: World, end: World, name: string, pod: Pod, id: nat)
    requires forall x :: x in first.work.pel && first.work.pel[x] == name ==> x == id
    requires id in end.past.items && id <= end.work.delivered
    ensures Resolved(end, id, pod.phase.PodSucceeded?) ==> Handled(first, end, name, pod)
  {
  }

  lemma StillHoldsReflexive(w: World)
    ensures PastGrows(w, w) && forall n :: StillHolds(w, w, n)
  {
  }

  lemma DriftHolds(w: World, w': World)
    requires Drift(w, w')
    ensures PastGrows(w, w') && forall n :: StillHolds(w, w', n)
  {
  }

  lemma OthersGrow(first: World, before: World, after: World, name: string)
    requires PastGrows(first, before) && KeepsOthers(before, after, name)
    ensures PastGrows(first, after) && PastGrows(before, after)
  {
  }

  lemma OthersHold(first: World, before: World, after: World, name: string, n: string)
    requires StillHolds(first, before, n) && KeepsOthers(before, after, name) && n != name
    ensures StillHolds(first, after, n)
  {
  }

  // The reasons a container waits for in vain.
  const WAITING_FOREVER: set<string> := {
    "ImagePullBackOff", "ErrImagePull", "InvalidImageName", "RegistryUnavailable",
    "CreateContainerConfigError", "CreateContainerError", "CrashLoopBackOff" }

  // A running pod with a main container that ended in an error.
  ghost predicate RunsBroken(pod: Pod) {
    pod.phase.PodRunning? && exists c :: c in pod.containers && c.Terminated? && c.exitCode != 0
  }

  // A container, main or init, waits for one of these reasons.
  ghost predicate WaitsForever(pod: Pod) {
    exists c :: c in pod.containers + pod.initContainers && c.Waiting? && c.reason in WAITING_FOREVER
  }

  ghost predicate NoneWaits(pod: Pod) {
    forall c :: c in pod.containers + pod.initContainers ==> !c.Waiting?
  }

  // Asked for between the two.
  ghost predicate Deleted(before: seq<string>, after: seq<string>, name: string) {
    |before| <= |after| && name in after[|before|..]
  }

  lemma DeletionsGrow(first: seq<string>, before: seq<string>, after: seq<string>, name: string, pod: Pod,
          list: map<string, Pod>)
    requires AllBroken(first, before, list) && OnlyBroken(before, after, name, pod)
    requires name in list && list[name] == pod
    ensures AllBroken(first, after, list)
    ensures forall n :: Deleted(first, before, n) ==> Deleted(first, after, n)
    ensures after == before + [name] ==> Deleted(first, after, name)
  {
    if after == before + [name] {
      assert after[|first|..] == before[|first|..] + [name];
    }
  }

  lemma NoDeletionYet(deletions: seq<string>, list: map<string, Pod>)
    ensures AllBroken(deletions, deletions, list) && forall n :: !Deleted(deletions, deletions, n)
  {
    assert deletions[|deletions|..] == [];
  }

  lemma DeletedWereBroken(before: seq<string>, after: seq<string>, seen: map<string, Pod>)
    requires AllBroken(before, after, seen)
    ensures forall name :: Deleted(before, after, name) ==> name in seen && Broken(seen[name])
  {
    forall name | Deleted(before, after, name) ensures name in seen && Broken(seen[name]) {
      var i :| 0 <= i < |after[|before|..]| && after[|before|..][i] == name;
      assert after[|before| + i] == name;
    }
  }

  lemma BrokenFields(list: map<string, Pod>)
    ensures forall name :: name in list ==>
              (Broken(list[name]) <==>
                 !list[name].phase.PodSucceeded? && (RunsBroken(list[name]) || WaitsForever(list[name])))
    ensures forall name :: name in list && list[name].phase.PodFailed? && NoneWaits(list[name]) ==> !Broken(list[name])
  {
    forall name | name in list
      ensures Broken(list[name]) <==>
                !list[name].phase.PodSucceeded? && (RunsBroken(list[name]) || WaitsForever(list[name]))
      ensures list[name].phase.PodFailed? && NoneWaits(list[name]) ==> !Broken(list[name])
    {
      PodFields(list[name]);
    }
  }

  lemma PodFields(pod: Pod)
    ensures HasCrashed(pod) <==> RunsBroken(pod)
    ensures CannotStart(pod) <==> WaitsForever(pod)
    ensures pod.phase.PodFailed? && NoneWaits(pod) ==> !RunsBroken(pod) && !WaitsForever(pod)
  {
    if HasCrashed(pod) {
      var i :| 0 <= i < |pod.containers| && pod.containers[i].Terminated? && pod.containers[i].exitCode != 0;
      assert pod.containers[i] in pod.containers;
    }
    if c :| c in pod.containers + pod.initContainers && c.Waiting? && c.reason in WAITING_FOREVER {
      if c in pod.containers {
        var i :| 0 <= i < |pod.containers| && pod.containers[i] == c;
      } else {
        var i :| 0 <= i < |pod.initContainers| && pod.initContainers[i] == c;
      }
    }
    if HasStuck(pod.containers) {
      var i :| 0 <= i < |pod.containers| && pod.containers[i].Waiting? && IsStartFailure(pod.containers[i].reason);
      assert pod.containers[i] in pod.containers + pod.initContainers;
    }
    if HasStuck(pod.initContainers) {
      var i :| 0 <= i < |pod.initContainers| && pod.initContainers[i].Waiting?
               && IsStartFailure(pod.initContainers[i].reason);
      assert pod.initContainers[i] in pod.containers + pod.initContainers;
    }
  }

  lemma HeldIsOwned(first: World, now: World, name: string)
    requires StillHolds(first, now, name)
    ensures OwnedBy(first.work, name) != {} ==> OwnedBy(now.work, name) != {}
  {
    if id :| id in OwnedBy(first.work, name) {
      assert id in OwnedBy(now.work, name);
    }
  }

  lemma HandledNow(first: World, before: World, after: World, n: string, pod: Pod)
    requires StillHolds(first, before, n) && Handled(before, after, n, pod)
    ensures Handled(first, after, n, pod)
  {
  }

  lemma HandledStays(first: World, before: World, after: World, n: string, pod: Pod)
    requires Handled(first, before, n, pod) && PastGrows(before, after)
    ensures Handled(first, after, n, pod)
  {
    forall id | id in first.work.pel && first.work.pel[id] == n
      ensures id in after.past.items && id <= after.work.delivered && Resolved(after, id, pod.phase.PodSucceeded?)
    {
      assert !Live(before, id);
      assert !Live(after, id);
    }
  }

  // ---------------------------------------------------------------- facts the reclaimer relies on

  lemma GrowsReflexive(w: World)
    ensures PastGrows(w, w)
  {
  }

  lemma GrowsTransitive(a: World, b: World, c: World)
    requires PastGrows(a, b) && PastGrows(b, c)
    ensures PastGrows(a, c)
  {
  }

  lemma KeepsGrows(w: World, w': World, except: set<nat>)
    requires Keeps(w, w', except)
    ensures PastGrows(w, w')
  {
  }

  lemma StillPending(w: World, w': World, id: nat)
    requires Keeps(w, w', {}) && id in w.work.pel
    ensures id in w'.work.pel && w'.work.pel[id] == w.work.pel[id]
  {
  }

  lemma AckedIsFinished(w: World, w': World, id: nat, workDone: bool)
    requires Keeps(w, w', {id}) && id in w.past.items && id <= w'.work.delivered && id !in w'.work.pel
    ensures (if workDone then id in w'.past.done else id in w'.past.covered) ==> Finished(w', id, workDone)
  {
  }

  lemma ReclaimableItem(w: World, id: nat, values: Body, workDone: bool, max: int)
    requires Inv(w, max) && Reclaimable(w, id, values, workDone)
    ensures 0 <= w.past.items[id].attempts < max <= 0x7FFF_FFFF
  {
  }

  lemma ReclaimableNotCovered(w: World, id: nat, values: Body, workDone: bool, max: int)
    requires Inv(w, max) && Reclaimable(w, id, values, workDone) && Loose(w) == {}
    ensures id !in w.past.covered
  {
    assert id in w.past.covered ==> id in Loose(w);
  }

  lemma ReclaimableStays(w: World, w': World, gone: nat, id: nat, values: Body, workDone: bool)
    requires Keeps(w, w', {gone}) && id != gone && Reclaimable(w, id, values, workDone)
    ensures Reclaimable(w', id, values, workDone)
  {
  }

  lemma FinishedStays(w: World, w': World, id: nat, workDone: bool)
    requires PastGrows(w, w') || Keeps(w, w', {}) || Keeps(w, w', {id})
    requires Finished(w, id, workDone)
    ensures Finished(w', id, workDone)
  {
    assert !Live(w, id);
    assert !Live(w', id);
  }

  lemma ReclaimedStays(w: World, w': World, id: nat, workDone: bool)
    requires PastGrows(w, w') && Reclaimed(w, id, workDone)
    ensures Reclaimed(w', id, workDone)
  {
    FinishedStays(w, w', id, workDone);
  }

  lemma ReclaimedIsSettled(w: World, id: nat, workDone: bool)
    requires Reclaimed(w, id, workDone)
    ensures Settled(w, id) && id !in Parked(w) && id !in w.work.entries
  {
  }

  lemma AllSettled(w: World, messages: seq<Message>, consumers: map<nat, string>, succeeded: set<string>,
                   taken: set<nat>)
    requires forall i :: 0 <= i < |messages| ==> messages[i].id in consumers
    requires forall i :: 0 <= i < |messages| ==> Reclaimed(w, messages[i].id, consumers[messages[i].id] in succeeded)
    requires forall id :: id in Ids(messages) <==> id in taken
    ensures forall id :: id in taken ==> Settled(w, id) && id !in w.work.entries && id !in Parked(w)
  {
    hide Reclaimed;
    forall id | id in taken ensures Settled(w, id) && id !in w.work.entries && id !in Parked(w) {
      var i :| 0 <= i < |messages| && Ids(messages)[i] == id;
      ReclaimedIsSettled(w, id, consumers[id] in succeeded);
    }
  }

  lemma LeastAscends(ids: seq<nat>, from: set<nat>, count: nat)
    requires Least(ids, from, count)
    ensures Ascending(ids) && forall id :: id in ids ==> id in from
  {
  }

  ghost function Members(ids: seq<nat>): set<nat> {
    set x | x in ids
  }

  lemma {:induction false} AscendingCount(ids: seq<nat>)
    requires Ascending(ids)
    ensures |Members(ids)| == |ids|
  {
    if ids != [] {
      var (init, last) := (ids[..|ids| - 1], ids[|ids| - 1]);
      AscendingCount(init);
      assert ids == init + [last];
      assert Members(ids) == Members(init) + {last};
    }
  }

  // A short enough answer to a query leaves out no member with fewer members before it.
  lemma WithinReach(ids: seq<nat>, from: set<nat>, count: nat, id: nat, before: set<nat>)
    requires Least(ids, from, count) && id in from && |before| < count
    requires forall x :: x in from && x < id ==> x in before
    ensures id in ids
  {
    if id !in ids {
      AscendingCount(ids);
      Subset(Members(ids), before);
      assert false;
    }
  }

  lemma InvParts(w: World, max: int)
    requires Inv(w, max)
    ensures StreamOk(w.work) && OwnersOk(w) && PodsOk(w)
  {
  }

  // A message within reach is among the hundred the server reports.
  lemma OfferedAreAnswered(first: World, asked: World, idle: set<nat>, stale: set<nat>, ids: seq<nat>, max: int)
    requires Inv(first, max) && Drift(first, asked)
    requires (forall id :: id in stale ==> id in asked.work.pel)
    requires (forall id :: id in asked.work.pel && id in idle ==> id in stale)
    requires Least(ids, stale, 100)
    ensures forall id :: Offered(first, idle, id) ==> id in ids
  {
    hide Least, Inv;
    InvParts(first, max);
    forall id | Offered(first, idle, id) ensures id in ids {
      WithinReach(ids, stale, 100, id, Older(first, id));
    }
  }

  lemma OfferedAreIdle(first: World, idle: set<nat>)
    ensures forall id :: Offered(first, idle, id) ==> id in idle
  {
  }

  // The consumer of a message within reach counts as running iff it is alive in the pod list.
  lemma OfferedAreFiltered(first: World, asked: World, listed: World, idle: set<nat>, pending: seq<PendingEntry>,
          running: set<string>, consumers: map<nat, string>)
    requires Drift(first, asked)
    requires running == set n | n in listed.pods && Alive(listed.pods[n])
    requires forall i :: 0 <= i < |pending| ==>
               pending[i].id in asked.work.pel && pending[i].consumer == asked.work.pel[pending[i].id]
    requires forall i :: 0 <= i < |pending| ==> (pending[i].id in consumers <==> pending[i].consumer !in running)
    requires forall id :: Offered(first, idle, id) ==> id in PendingIds(pending)
    ensures forall id :: Offered(first, idle, id) ==> (id in consumers <==> !AliveIn(listed, first.work.pel[id]))
  {
    hide Alive;
    forall id | Offered(first, idle, id) ensures id in consumers <==> !AliveIn(listed, first.work.pel[id]) {
      var i :| 0 <= i < |pending| && PendingIds(pending)[i] == id;
      assert pending[i].id == id;
    }
  }

  // Which of the messages within reach have a consumer that is not alive when the pods are listed.
  lemma OrphansAre(first: World, listed: World, idle: set<nat>, max: int)
    requires Inv(first, max) && Inv(listed, max) && PastGrows(first, listed)
    ensures forall id :: Due(first, idle, id) ==> Offered(first, idle, id) && !AliveIn(listed, first.work.pel[id])
    ensures forall id :: Offered(first, idle, id) ==>
              (AliveIn(listed, first.work.pel[id]) <==> Shielded(listed.pods, first.work.pel[id]))
    ensures forall id :: Offered(first, idle, id) ==>
              (BrokenAtWork(first, first.work.pel[id]) ==> !AliveIn(listed, first.work.pel[id]))
  {
    hide Inv, PastGrows, RunsBroken, Offered;
    InvParts(first, max);
    InvParts(listed, max);
    forall id | Due(first, idle, id)
      ensures id in first.work.pel && Offered(first, idle, id) && !AliveIn(listed, first.work.pel[id])
    {
      DueIsPending(first, idle, id);
      DeadOwner(first, listed, idle, id);
    }
    forall id | Offered(first, idle, id)
      ensures id in first.work.pel
      ensures AliveIn(listed, first.work.pel[id]) <==> Shielded(listed.pods, first.work.pel[id])
      ensures BrokenAtWork(first, first.work.pel[id]) ==> !AliveIn(listed, first.work.pel[id])
    {
      OfferedIsPending(first, idle, id);
      var owner := first.work.pel[id];
      if owner in listed.pods {
        PodFields(listed.pods[owner]);
      }
      if owner in first.pods {
        PodFields(first.pods[owner]);
        StaysDead(first, listed, owner);
      }
    }
  }

  lemma OfferedIsPending(w: World, idle: set<nat>, id: nat)
    requires Offered(w, idle, id)
    ensures id in w.work.pel
  {
  }

  lemma DueIsPending(w: World, idle: set<nat>, id: nat)
    requires Due(w, idle, id)
    ensures id in w.work.pel
  {
  }

  lemma StaysDead(first: World, listed: World, name: string)
    requires PodsOk(first) && PastGrows(first, listed) && name in first.pods
    ensures !AliveIn(first, name) ==> !AliveIn(listed, name)
  {
  }

  lemma DeadOwner(first: World, listed: World, idle: set<nat>, id: nat)
    requires OwnersOk(first) && PodsOk(listed) && PastGrows(first, listed) && Due(first, idle, id)
    ensures !AliveIn(listed, first.work.pel[id])
  {
    if first.work.pel[id] == RECLAIMER {
      assert RECLAIMER !in listed.pods;
    } else {
      assert first.past.ran[id] in first.past.names;
    }
  }

  lemma JudgedIs(listed: World, end: World, id: nat, workDone: bool, max: int)
    requires Inv(listed, max) && Inv(end, max) && PastGrows(listed, end)
    requires id in listed.work.pel && !AliveIn(listed, listed.work.pel[id])
    requires workDone <==> OwnerSucceeded(listed, id)
    requires Reclaimed(end, id, workDone) && end.past.done !! end.past.covered
    ensures Judged(listed, end, id)
  {
    hide ItemsOk, BodiesOk, SettledOk, AttemptsOk, Live, PodsPass;
    assert id in listed.past.ran && end.past.ran[id] == listed.past.ran[id];
  }

  lemma AllJudged(listed: World, end: World, ids: seq<nat>, messages: seq<Message>, consumers: map<nat, string>,
                  succeeded: set<string>, taken: set<nat>, max: int)
    requires Inv(listed, max) && Inv(end, max) && PastGrows(listed, end) && end.past.done !! end.past.covered
    requires Enabled(listed, Take(set id | id in ids), max) && taken <= set id | id in ids
    requires succeeded == set n | n in listed.pods && listed.pods[n].phase.PodSucceeded?
    requires OwnersAre(listed, consumers)
    requires forall i :: 0 <= i < |messages| ==> messages[i].id in consumers
    requires forall i :: 0 <= i < |messages| ==> Reclaimed(end, messages[i].id, consumers[messages[i].id] in succeeded)
    requires forall id :: id in taken ==> id in Ids(messages)
    ensures forall id :: id in taken ==> Judged(listed, end, id)
    ensures forall id :: id in taken && id in Parked(listed) ==> id in end.past.covered && id !in end.past.done
  {
    hide Inv, PastGrows, Reclaimed;
    forall id | id in taken ensures Judged(listed, end, id) {
      var i :| 0 <= i < |messages| && Ids(messages)[i] == id;
      JudgedIs(listed, end, id, consumers[id] in succeeded, max);
    }
    InvParts(listed, max);
  }

  lemma ListIsJudged(first: World, listed: World, end: World, max: int)
    requires Inv(first, max) && Inv(listed, max) && Inv(end, max) && end.past.done !! end.past.covered
    requires PastGrows(first, end) && PastGrows(listed, end)
    requires forall n :: n in listed.pods && IsOver(listed.pods[n]) ==> Handled(first, end, n, listed.pods[n])
    ensures forall n :: n in listed.pods && IsOver(listed.pods[n]) ==> JudgedByHandler(first, end, n, listed.pods[n])
  {
    hide Inv, PastGrows, Handled, IsOver, JudgedByHandler;
    InvParts(first, max);
    InvParts(listed, max);
    forall n | n in listed.pods && IsOver(listed.pods[n]) ensures JudgedByHandler(first, end, n, listed.pods[n]) {
      LateFinish(listed, end, n);
      HandledIsJudged(first, end, n, listed.pods[n]);
    }
  }

  // A listed pod that is over, and not by success, finishes later only if it could not start at the time.
  lemma LateFinish(listed: World, end: World, n: string)
    requires PodsOk(listed) && PastGrows(listed, end) && n in listed.pods && IsOver(listed.pods[n])
    ensures n != RECLAIMER
    ensures var pod := listed.pods[n]; n in end.past.finished && !pod.phase.PodSucceeded? ==> Recovered(end, n, pod)
    ensures Recovered(end, n, listed.pods[n]) ==> !listed.pods[n].phase.PodSucceeded?
  {
    hide PodsPass;
    assert n in listed.past.names;
  }

  lemma HandledIsJudged(first: World, end: World, n: string, pod: Pod)
    requires OwnersOk(first) && PastGrows(first, end) && Handled(first, end, n, pod) && n != RECLAIMER
    requires end.past.done !! end.past.covered
    requires n in end.past.finished && !pod.phase.PodSucceeded? ==> Recovered(end, n, pod)
    requires Recovered(end, n, pod) ==> !pod.phase.PodSucceeded?
    ensures JudgedByHandler(first, end, n, pod)
  {
    hide PodsPass;
  }

  lemma EndedAreListed(first: World, listed: World, end: World, max: int)
    requires Inv(first, max) && PastGrows(first, listed) && PastGrows(listed, end)
    ensures forall name :: name in end.pods && Ended(first, name) ==>
              name in listed.pods && listed.pods[name].phase == first.pods[name].phase
  {
    forall name | name in end.pods && Ended(first, name)
      ensures name in listed.pods && listed.pods[name].phase == first.pods[name].phase
    {
      assert name in first.past.names && name in listed.past.names;
    }
  }

  lemma BrokenAreListed(first: World, listed: World, end: World, max: int)
    requires Inv(first, max) && Inv(listed, max) && PastGrows(first, listed) && PastGrows(listed, end)
    ensures forall name :: name in end.pods && BrokenAtWork(first, name) ==>
              name in listed.pods && (RunsBroken(listed.pods[name]) || listed.pods[name].phase.PodFailed?)
  {
    hide RunsBroken, Inv;
    InvParts(first, max);
    InvParts(listed, max);
    forall name | name in end.pods && BrokenAtWork(first, name)
      ensures name in listed.pods && (RunsBroken(listed.pods[name]) || listed.pods[name].phase.PodFailed?)
    {
      assert name in first.past.names && name in listed.past.names && name in listed.pods;
      PodFields(first.pods[name]);
      PodFields(listed.pods[name]);
    }
  }

  lemma NoOwners(w: World, max: int)
    ensures OwnersAre(w, map[]) && Ascending([]) && Enabled(w, Take(set id: nat | id in []), max)
  {
  }

  lemma EndedAreHandled(first: World, handled: World, end: World, seen: map<string, Pod>, max: int)
    requires Inv(first, max) && PastGrows(first, handled) && PastGrows(handled, end)
    requires forall name :: name in seen && IsOver(seen[name]) ==> Handled(first, handled, name, seen[name])
    requires forall name :: name in handled.pods && Ended(first, name) ==>
               name in seen && seen[name].phase == first.pods[name].phase
    ensures forall name :: name in end.pods && Ended(first, name) ==> Handled(first, end, name, first.pods[name])
  {
    hide Handled, Inv;
    InvParts(first, max);
    forall name | name in end.pods && Ended(first, name) ensures Handled(first, end, name, first.pods[name]) {
      assert name in first.past.names && name in handled.past.names && name in handled.pods;
      HandledStays(first, handled, end, name, seen[name]);
      SamePhaseHandled(first, end, name, seen[name], first.pods[name]);
    }
  }

  // Every pod that had ended and is still there has had its message handled, and every message that was due is
  // settled.
  ghost predicate WorkedOff(first: World, idle: set<nat>, end: World) {
    && (forall name :: name in end.pods && Ended(first, name) ==> Handled(first, end, name, first.pods[name]))
    && (forall id :: Due(first, idle, id) ==> Settled(end, id))
  }

  lemma WorkStays(first: World, idle: set<nat>, worked: World, end: World, max: int)
    requires Inv(first, max) && Inv(worked, max) && Drift(worked, end) && WorkedOff(first, idle, worked)
    requires PastGrows(first, worked)
    ensures WorkedOff(first, idle, end)
  {
    hide Inv, PastGrows, Handled, Due, Settled, Drift;
    InvParts(first, max);
    DriftKeeps(worked, end);
    KeepsGrows(worked, end, {});
    forall name | name in end.pods && Ended(first, name) ensures Handled(first, end, name, first.pods[name]) {
      StillThere(first, worked, end, name);
      HandledStays(first, worked, end, name, first.pods[name]);
    }
    forall id | Due(first, idle, id) ensures Settled(end, id) {
      SettledStays(worked, end, id, max);
    }
  }

  lemma StillThere(first: World, worked: World, end: World, name: string)
    requires PodsOk(first) && PastGrows(first, worked) && PastGrows(worked, end) && Ended(first, name)
    ensures name in first.pods && (name in end.pods ==> name in worked.pods)
  {
    assert name in first.past.names && name in worked.past.names;
  }

  lemma SamePhaseHandled(w: World, w': World, name: string, pod: Pod, other: Pod)
    requires Handled(w, w', name, pod) && pod.phase == other.phase
    ensures Handled(w, w', name, other)
  {
  }

  lemma DueAreSettled(first: World, idle: set<nat>, handled: World, idleThen: set<nat>, reclaimed: World,
          taken: set<nat>, max: int)
    requires Inv(first, max) && Inv(handled, max)
    requires PastGrows(first, handled) && PastGrows(handled, reclaimed) && idle <= idleThen
    requires forall id :: Due(handled, idleThen, id) ==> id in taken
    requires forall id :: id in taken ==> Settled(reclaimed, id)
    ensures forall id :: Due(first, idle, id) ==> Settled(reclaimed, id)
  {
    hide Inv, PastGrows, Due, Settled;
    forall id | Due(first, idle, id) ensures Settled(reclaimed, id) {
      DueOrSettled(first, idle, handled, idleThen, id, max);
      if !Due(handled, idleThen, id) {
        SettledStays(handled, reclaimed, id, max);
      }
    }
  }

  lemma DueOrSettled(w: World, idle: set<nat>, w': World, idle': set<nat>, id: nat, max: int)
    requires Inv(w, max) && Inv(w', max) && PastGrows(w, w') && idle <= idle' && Due(w, idle, id)
    ensures Due(w', idle', id) || Settled(w', id)
  {
    if id in w'.work.pel {
      OlderShrinks(w, w', id, max);
      assert w.past.ran[id] in w.past.names;
    } else {
      assert !Live(w', id);
    }
  }

  lemma OlderShrinks(w: World, w': World, id: nat, max: int)
    requires Inv(w, max) && Inv(w', max) && PastGrows(w, w') && id in w.work.pel
    ensures |Older(w', id)| <= |Older(w, id)|
  {
    forall x | x in Older(w', id) ensures x in Older(w, id) {
      assert Live(w', x) && x in w.past.items;
      assert Live(w, x);
    }
    Subset(Older(w', id), Older(w, id));
  }

  lemma SettledStays(w: World, w': World, id: nat, max: int)
    requires Inv(w, max) && PastGrows(w, w') && Settled(w, id)
    ensures Settled(w', id)
  {
    assert id in w.past.ran && id in w.past.items;
    assert !Live(w, id) && !Live(w', id);
  }

  // The reclaimer's filter is sound: at the moment of the pod list no owner of a filtered entry is alive.
  lemma OwnersAreDead(asked: World, listed: World, pending: seq<PendingEntry>, running: set<string>,
                      ids: seq<nat>, consumers: map<nat, string>, max: int)
    requires Drift(asked, listed) && running == set n | n in listed.pods && Alive(listed.pods[n])
    requires forall i :: 0 <= i < |pending| ==>
               pending[i].id in asked.work.pel && pending[i].consumer == asked.work.pel[pending[i].id]
    requires forall i :: 0 <= i < |pending| ==>
               (pending[i].id in consumers <==> pending[i].consumer !in running)
               && (pending[i].id in consumers ==> consumers[pending[i].id] == pending[i].consumer)
    requires forall id :: id in consumers ==> id in PendingIds(pending)
    requires forall id :: id in ids <==> id in consumers
    ensures Enabled(listed, Take(set id | id in ids), max) && OwnersAre(listed, consumers)
  {
    forall id | id in consumers
      ensures id in listed.work.pel && consumers[id] == listed.work.pel[id] && !AliveIn(listed, consumers[id])
    {
      var i :| 0 <= i < |pending| && PendingIds(pending)[i] == id;
      assert pending[i].id == id;
    }
  }

  lemma TakenIsReclaimable(listed: World, claimed: World, id: nat, consumer: string, max: int)
    requires Inv(listed, max) && Inv(claimed, max) && PastGrows(listed, claimed)
    requires id in listed.work.pel && listed.work.pel[id] == consumer
    requires id in Parked(claimed) && id in claimed.work.entries
    ensures forall workDone :: (workDone ==> consumer in listed.pods && listed.pods[consumer].phase.PodSucceeded?) ==>
              Reclaimable(claimed, id, claimed.work.entries[id], workDone)
  {
    hide BodiesOk, SettledOk, AttemptsOk, Live;
    BodyCarries(claimed, id);
    assert id in listed.past.ran && id in claimed.past.ran && claimed.past.ran[id] == listed.past.ran[id];
  }

  lemma TakenAreReclaimable(listed: World, claimed: World, consumers: map<nat, string>, succeeded: set<string>,
                            messages: seq<Message>, taken: set<nat>, max: int)
    requires Inv(listed, max) && Inv(claimed, max) && PastGrows(listed, claimed)
    requires succeeded == set n | n in listed.pods && listed.pods[n].phase.PodSucceeded?
    requires OwnersAre(listed, consumers)
    requires forall id :: id in taken ==> id in consumers && id in Parked(claimed)
    requires FromStream(messages, claimed.work) && forall id :: id in Ids(messages) ==> id in taken
    ensures forall i :: 0 <= i < |messages| ==>
      messages[i].id in consumers
      && Reclaimable(claimed, messages[i].id, messages[i].values, consumers[messages[i].id] in succeeded)
  {
    hide Inv, PastGrows, Reclaimable, Parked;
    forall i | 0 <= i < |messages|
      ensures messages[i].id in consumers
      ensures Reclaimable(claimed, messages[i].id, messages[i].values, consumers[messages[i].id] in succeeded)
    {
      var id := messages[i].id;
      assert Ids(messages)[i] == id && id in Ids(messages);
      TakenIsReclaimable(listed, claimed, id, consumers[id], max);
    }
  }
}
