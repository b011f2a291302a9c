/** Reconcile passes after a failed run was flushed. Nothing stops them, and a flush whose calls failed leaves
    messages behind, pending entries without a body, and owners the protocol does not know. Whatever pods there are
    and whatever fails, the handler and the reclaimer keep the bounds on attempts, and a pending message with a body
    leaves the pending list only when its pod succeeded or a retry or letter was written for it. */
module LaterPasses {
  import opened Decimal
  import opened Streams
  import opened ValkeyClient
  import opened Pods
  import opened Flush
  import opened Reconciler
  import opened Protocol

  // ---------------------------------------------------------------- what may happen to a message

  // Nothing comes back into an empty stream, and no letter is written for it.
  ghost predicate StaysEmpty(work: Stream, dlq: Stream, work': Stream, dlq': Stream) {
    work.entries == map[] ==> work'.entries == map[] && dlq' == dlq
  }

  // No message and no letter was written or deleted.
  ghost predicate Untouched(work: Stream, dlq: Stream, work': Stream, dlq': Stream) {
    work'.entries == work.entries && work'.lastId == work.lastId && dlq' == dlq
  }

  // Exactly one new message with these attempts; or, when they reach max, exactly one new letter saying max.
  ghost predicate FiledAs(work: Stream, dlq: Stream, work': Stream, dlq': Stream, file: string, attempts: nat, max: int)
  {
    if attempts < max then
      && work'.entries == work.entries[work.lastId + 1 := Body(file, Itoa(attempts))]
      && work'.lastId == work.lastId + 1 && dlq' == dlq
    else
      && work'.entries == work.entries && work'.lastId == work.lastId
      && dlq'.entries == dlq.entries[dlq.lastId + 1 := Body(file, Itoa(max))] && dlq'.lastId == dlq.lastId + 1
  }

  // A message that says k attempts is filed once, with k + 1.
  ghost predicate Filed(work: Stream, dlq: Stream, work': Stream, dlq': Stream, values: Body, max: int) {
    exists k: nat :: k < max && values.attempts == Itoa(k) && FiledAs(work, dlq, work', dlq', values.file, k + 1, max)
  }

  // Since then a message that says k attempts got a new message saying k + 1, or a new letter saying max.
  ghost predicate Repaid(work: Stream, dlq: Stream, work': Stream, dlq': Stream, values: Body, max: int) {
    exists k: nat :: k < max && values.attempts == Itoa(k)
                     && if k + 1 < max then Added(work, work', Body(values.file, Itoa(k + 1)))
                        else Added(dlq, dlq', Body(values.file, Itoa(max)))
  }

  ghost predicate Added(s: Stream, s': Stream, body: Body) {
    exists id :: id in s'.entries && id > s.lastId && s'.entries[id] == body
  }

  // A pod the handler acts on, in its fields.
  ghost predicate IsCompleted(pod: Pod) {
    pod.phase.PodSucceeded? || pod.phase.PodFailed? || RunsBroken(pod) || WaitsForever(pod)
  }

  // What becomes of one delivery, whatever fails. It is the only one that may leave the pending list. Without a
  // body, or if its work is done, nothing is written; otherwise it is filed, or nothing is written and it stays.
  ghost predicate Settles(work: Stream, dlq: Stream, work': Stream, dlq': Stream, id: nat, workDone: bool, max: int) {
    && PelKept(work, work', {id})
    && (if workDone || id !in work.entries then Untouched(work, dlq, work', dlq')
        else
          || Filed(work, dlq, work', dlq', work.entries[id], max)
          || (Untouched(work, dlq, work', dlq') && (id in work.pel ==> id in work'.pel)))
  }

  // The oldest delivery of a consumer.
  ghost predicate IsOldest(s: Stream, name: string, id: nat) {
    id in OwnedBy(s, name) && forall x :: x in OwnedBy(s, name) ==> id <= x
  }

  // Idle for long enough, and within reach of one batch.
  ghost predicate Reached(s: Stream, idle: set<nat>, id: nat) {
    id in s.pel && id in idle && |Before(s, id)| < 100
  }

  ghost function Before(s: Stream, id: nat): set<nat> {
    set x | x in s.pel && x < id
  }

  ghost predicate ListedCompleted(list: map<string, Pod>, name: string) {
    name in list && IsCompleted(list[name])
  }

  ghost predicate ListedSucceeded(list: map<string, Pod>, name: string) {
    name in list && list[name].phase.PodSucceeded?
  }

  // Why a message may have left the pending list: its consumer is listed as succeeded, or it got a successor.
  ghost predicate Excused(list: map<string, Pod>, work: Stream, dlq: Stream, work': Stream, dlq': Stream, id: nat,
                          max: int)
  {
    && id in work.pel && id in work.entries
    && (ListedSucceeded(list, work.pel[id]) || Repaid(work, dlq, work', dlq', work.entries[id], max))
  }

  lemma PelKeptTransitive(a: Stream, b: Stream, c: Stream, gone: set<nat>, more: set<nat>)
    requires StreamOk(a) && PelKept(a, b, gone) && PelKept(b, c, more)
    ensures PelKept(a, c, gone + more)
  {
  }

  lemma PelKeptAfter(a: Stream, b: Stream, c: Stream, gone: set<nat>)
    requires StreamOk(a) && PelKept(a, b, {}) && PelKept(b, c, gone)
    ensures PelKept(a, c, gone) && forall x :: x in a.pel ==> x in b.pel
  {
  }

  lemma PelKeptAll(first: Stream, work: Stream, work': Stream, all: set<nat>, id: nat)
    requires StreamOk(first) && PelKept(first, work, all) && id in all && PelKept(work, work', {id})
    ensures PelKept(first, work', all)
  {
  }

  lemma PelKeptMore(s: Stream, s': Stream, gone: set<nat>)
    requires PelKept(s, s', {})
    ensures PelKept(s, s', gone) && forall x :: x in s.pel ==> x in s'.pel
  {
  }

  lemma FiledIsRepaid(work: Stream, dlq: Stream, work': Stream, dlq': Stream, values: Body, max: int)
    requires Filed(work, dlq, work', dlq', values, max)
    ensures Repaid(work, dlq, work', dlq', values, max)
  {
    var k: nat :| k < max && values.attempts == Itoa(k) && FiledAs(work, dlq, work', dlq', values.file, k + 1, max);
    if k + 1 < max {
      assert work.lastId + 1 in work'.entries;
    } else {
      assert dlq.lastId + 1 in dlq'.entries;
    }
  }

  lemma RepaidSince(first: Stream, letters: Stream, work: Stream, dlq: Stream, work': Stream, dlq': Stream,
                    values: Body, max: int)
    requires Repaid(work, dlq, work', dlq', values, max)
    requires first.lastId <= work.lastId && letters.lastId <= dlq.lastId
    ensures Repaid(first, letters, work', dlq', values, max)
  {
    var k: nat :| k < max && values.attempts == Itoa(k)
                  && if k + 1 < max then Added(work, work', Body(values.file, Itoa(k + 1)))
                     else Added(dlq, dlq', Body(values.file, Itoa(max)));
    assert if k + 1 < max then Added(first, work', Body(values.file, Itoa(k + 1)))
           else Added(letters, dlq', Body(values.file, Itoa(max)));
  }

  // Further writes leave a new message and a new letter where they are; so does deleting an older message.
  ghost predicate Retains(s: Stream, s': Stream, bound: nat) {
    forall id :: id in s.entries && id > bound ==> id in s'.entries && s'.entries[id] == s.entries[id]
  }

  lemma RepaidStays(work: Stream, dlq: Stream, work1: Stream, dlq1: Stream, work2: Stream, dlq2: Stream,
                    values: Body, max: int)
    requires Repaid(work, dlq, work1, dlq1, values, max)
    requires Retains(work1, work2, work.lastId) && Retains(dlq1, dlq2, dlq.lastId)
    ensures Repaid(work, dlq, work2, dlq2, values, max)
  {
    var k: nat :| k < max && values.attempts == Itoa(k)
                  && if k + 1 < max then Added(work, work1, Body(values.file, Itoa(k + 1)))
                     else Added(dlq, dlq1, Body(values.file, Itoa(max)));
    if k + 1 < max {
      AddedStays(work, work1, work2, Body(values.file, Itoa(k + 1)));
    } else {
      AddedStays(dlq, dlq1, dlq2, Body(values.file, Itoa(max)));
    }
  }

  lemma AddedStays(s: Stream, s1: Stream, s2: Stream, body: Body)
    requires Added(s, s1, body) && Retains(s1, s2, s.lastId)
    ensures Added(s, s2, body)
  {
    var id :| id in s1.entries && id > s.lastId && s1.entries[id] == body;
    assert id in s2.entries;
  }

  // Filing adds one new message or one new letter, and takes nothing away.
  lemma FiledShape(work: Stream, dlq: Stream, work': Stream, dlq': Stream, values: Body, max: int)
    requires Filed(work, dlq, work', dlq', values, max) && StreamOk(work) && StreamOk(dlq)
    ensures Retains(work, work', 0) && Retains(dlq, dlq', 0)
    ensures work.lastId <= work'.lastId && dlq.lastId <= dlq'.lastId
    ensures work'.lastId + dlq'.lastId == work.lastId + dlq.lastId + 1
    ensures forall x :: x in work'.entries ==> x in work.entries || x > work.lastId
  {
  }

  lemma StepRetains(work: Stream, dlq: Stream, work': Stream, dlq': Stream, values: Body, max: int)
    requires Untouched(work, dlq, work', dlq') || Filed(work, dlq, work', dlq', values, max)
    requires StreamOk(work) && StreamOk(dlq)
    ensures Retains(work, work', 0) && Retains(dlq, dlq', 0)
    ensures work.lastId <= work'.lastId && dlq.lastId <= dlq'.lastId
  {
    hide Filed;
    if Filed(work, dlq, work', dlq', values, max) {
      FiledShape(work, dlq, work', dlq', values, max);
    }
  }

  // ---------------------------------------------------------------- calls

  // Pods claim, and time passes.
  method Disturb(queue: Valkey, max: int)
    requires Sound(queue, max)
    modifies queue
    ensures Sound(queue, max) && Untouched(old(queue.work), old(queue.dlq), queue.work, queue.dlq)
    ensures PelKept(old(queue.work), queue.work, {}) && old(queue.work).delivered <= queue.work.delivered
    ensures queue.faultsLeft == old(queue.faultsLeft) && old(queue.idle) <= queue.idle
  {
    hide Within;
    ghost var (work, dlq) := (queue.work, queue.dlq);
    queue.Claims(false);
    queue.Tick();
    SameEntriesWithin(work, queue.work, dlq, max);
  }

  method Acknowledge(queue: Valkey, id: nat, max: int) returns (ok: bool)
    requires Sound(queue, max) && id <= queue.work.delivered
    modifies queue
    ensures Sound(queue, max) && Untouched(old(queue.work), old(queue.dlq), queue.work, queue.dlq)
    ensures PelKept(old(queue.work), queue.work, {id}) && old(queue.work).delivered <= queue.work.delivered
    ensures queue.faultsLeft <= old(queue.faultsLeft) && (old(queue.faultsLeft) == 0 ==> ok)
    ensures ok ==> id !in queue.work.pel
  {
    hide Within;
    Disturb(queue, max);
    ghost var (work, dlq) := (queue.work, queue.dlq);
    ok := queue.AckMessage(id);
    SameEntriesWithin(work, queue.work, dlq, max);
  }

  method DeleteMessage(queue: Valkey, id: nat, max: int) returns (ok: bool)
    requires Sound(queue, max)
    modifies queue
    ensures Sound(queue, max) && PelKept(old(queue.work), queue.work, {})
    ensures queue.work.entries == old(queue.work).entries - {id}
            || (!ok && queue.work.entries == old(queue.work).entries)
    ensures queue.work.lastId == old(queue.work).lastId && queue.dlq == old(queue.dlq)
    ensures queue.faultsLeft <= old(queue.faultsLeft) && (old(queue.faultsLeft) == 0 ==> ok)
  {
    Disturb(queue, max);
    ok := queue.DeleteMessages(WorkKey, [id]);
  }

  lemma SameEntriesWithin(work: Stream, work': Stream, dlq: Stream, max: int)
    requires Within(work, dlq, max) && work'.entries == work.entries && StreamOk(work')
    ensures Within(work', dlq, max)
  {
  }

  lemma MessagesAreReadable(messages: seq<Message>, work: Stream, dlq: Stream, max: int)
    requires FromStream(messages, work) && Within(work, dlq, max)
    ensures forall i :: 0 <= i < |messages| ==> Readable(messages[i].values, max)
  {
  }

  // ---------------------------------------------------------------- one message

  /** A message that was read back is filed, that is written once more or dead-lettered, and then acknowledged. */
  method WriteOff(queue: Valkey, id: nat, values: Body, max: int) returns (ok: bool)
    requires Sound(queue, max) && Readable(values, max) && id <= queue.work.delivered
    modifies queue
    ensures Sound(queue, max) && PelKept(old(queue.work), queue.work, {id})
    ensures queue.faultsLeft <= old(queue.faultsLeft) && (old(queue.faultsLeft) == 0 ==> ok)
    ensures ok ==> id !in queue.work.pel
    ensures old(queue.work).delivered <= queue.work.delivered
    // Whatever fails, it is filed at most once, and acknowledged only after that.
    ensures Filed(old(queue.work), old(queue.dlq), queue.work, queue.dlq, values, max)
            || (Untouched(old(queue.work), old(queue.dlq), queue.work, queue.dlq)
                && !ok && (id in old(queue.work).pel ==> id in queue.work.pel))
  {
    hide Within, Readable, PelKept, Filed;
    var attempts := ParseAttempts(values.attempts, 0);
    ReadsBack(values, max, 0);
    attempts := attempts + 1;
    ghost var first := queue.work;
    Disturb(queue, max);
    ghost var (work, dlq) := (queue.work, queue.dlq);
    if attempts < max {
      ok := queue.EnqueueFileWithAttempts(values.file, attempts);
      WriteKeeps(work, dlq, Body(values.file, Itoa(attempts)), attempts, max);
    } else {
      ok := queue.AddToDLQ(values.file, attempts);
      LetterKeeps(work, dlq, Body(values.file, Itoa(attempts)), max);
    }
    AddKeepsPel(first, work, queue.work, id);
    if queue.work != work || queue.dlq != dlq {
      FiledNow(first, work, dlq, queue.work, queue.dlq, values, attempts, max);
    }
    if !ok {
      return;
    }
    ghost var filed := queue.work;
    ok := Acknowledge(queue, id, max);
    PelKeptAfter(first, filed, queue.work, {id});
    FiledBefore(first, dlq, filed, queue.work, queue.dlq, values, max);
  }

  lemma AddKeepsPel(first: Stream, work: Stream, work': Stream, id: nat)
    requires PelKept(first, work, {}) && work'.pel == work.pel && work'.delivered == work.delivered
    ensures PelKept(first, work', {}) && PelKept(first, work', {id}) && first.delivered <= work'.delivered
    ensures id in first.pel ==> id in work'.pel
  {
  }

  lemma FiledNow(first: Stream, work: Stream, dlq: Stream, work': Stream, dlq': Stream, values: Body, attempts: nat,
                 max: int)
    requires Untouched(first, dlq, work, dlq) && 1 <= attempts <= max && values.attempts == Itoa(attempts - 1)
    requires if attempts < max then work' == XAdd(work, Body(values.file, Itoa(attempts))) && dlq' == dlq
             else work' == work && dlq' == XAdd(dlq, Body(values.file, Itoa(attempts)))
    ensures Filed(first, dlq, work', dlq', values, max)
  {
    var k: nat := attempts - 1;
    assert values.attempts == Itoa(k) && FiledAs(first, dlq, work', dlq', values.file, k + 1, max);
  }

  lemma FiledBefore(work: Stream, dlq: Stream, filed: Stream, work': Stream, dlq': Stream, values: Body, max: int)
    requires Filed(work, dlq, filed, dlq', values, max) && Untouched(filed, dlq', work', dlq')
    ensures Filed(work, dlq, work', dlq', values, max)
  {
    var k: nat :| k < max && values.attempts == Itoa(k) && FiledAs(work, dlq, filed, dlq', values.file, k + 1, max);
    assert FiledAs(work, dlq, work', dlq', values.file, k + 1, max);
  }

  lemma WriteKeeps(work: Stream, dlq: Stream, body: Body, attempts: nat, max: int)
    requires Within(work, dlq, max) && attempts < max && body.attempts == Itoa(attempts)
    ensures Within(XAdd(work, body), dlq, max)
  {
    assert Readable(body, max);
  }

  lemma LetterKeeps(work: Stream, dlq: Stream, body: Body, max: int)
    requires Within(work, dlq, max) && body.attempts == Itoa(max)
    ensures Within(work, XAdd(dlq, body), max)
  {
  }

  // ---------------------------------------------------------------- the handler

  /** One completed pod. Here the branch for a pending entry without a body can be taken. `id` is the delivery it
      found and tried to settle, if its calls got that far. */
  method HandlePod(queue: Valkey, name: string, pod: Pod, max: int) returns (ghost id: Option<nat>)
    requires Sound(queue, max)
    modifies queue
    ensures Sound(queue, max) && StaysEmpty(old(queue.work), old(queue.dlq), queue.work, queue.dlq)
    ensures queue.faultsLeft <= old(queue.faultsLeft)
    ensures !IsCompleted(pod) ==> queue.work == old(queue.work) && queue.dlq == old(queue.dlq)
    ensures id.None? ==>
              && Untouched(old(queue.work), old(queue.dlq), queue.work, queue.dlq)
              && PelKept(old(queue.work), queue.work, {})
    // The delivery is the pod's own. A succeeded pod's message is not written anywhere, and any other pod's leaves
    // the pending list only once it is filed.
    ensures id.Some? ==>
              && IsCompleted(pod)
              && (if id.value in old(queue.work).pel then old(queue.work).pel[id.value] == name
                  else id.value > old(queue.work).delivered)
              && Settles(old(queue.work), old(queue.dlq), queue.work, queue.dlq, id.value, pod.phase.PodSucceeded?, max)
    // With no failing call the oldest delivery of a completed pod is settled, and its message filed unless the
    // pod succeeded.
    ensures old(queue.faultsLeft) == 0 && IsCompleted(pod) && OwnedBy(old(queue.work), name) != {} ==>
              && id.Some? && IsOldest(old(queue.work), name, id.value) && id.value !in queue.work.pel
              && (id.value in old(queue.work).entries && !pod.phase.PodSucceeded? ==>
                    Filed(old(queue.work), old(queue.dlq), queue.work, queue.dlq, old(queue.work).entries[id.value],
                          max))
  {
    hide Within, Readable, Least, RunsBroken, WaitsForever, HasCrashed, CannotStart, Filed, PelKept;
    PodFields(pod);
    ghost var (first, dlq) := (queue.work, queue.dlq);
    PelKeptReflexive(first);
    id := None;
    var hasStartFailure := DetectPodStartFailure(pod);
    var hasCrash := DetectContainerCrash(pod);
    if !pod.phase.PodSucceeded? && !pod.phase.PodFailed? && !hasStartFailure && !hasCrash {
      return;
    }
    Disturb(queue, max);
    ghost var asked := queue.work;
    var ok, pendingIds := queue.GetPendingForConsumer(name, 1);
    if ok {
      OldestOwned(first, asked, pendingIds, name);
    }
    if !ok || |pendingIds| == 0 {
      return;
    }
    ghost var found := queue.work;
    SettleEntry(queue, pendingIds[0], pod.phase.PodSucceeded?, max);
    id := Some(pendingIds[0]);
    FiledAfter(first, found, dlq, queue.work, queue.dlq, pendingIds[0], pod.phase.PodSucceeded?, max);
  }

  // A pod's pending entry: acknowledged if the pod succeeded or the body is gone, else filed.
  method SettleEntry(queue: Valkey, id: nat, succeeded: bool, max: int)
    requires Sound(queue, max) && id <= queue.work.delivered
    modifies queue
    ensures Sound(queue, max) && queue.faultsLeft <= old(queue.faultsLeft)
    ensures Settles(old(queue.work), old(queue.dlq), queue.work, queue.dlq, id, succeeded, max)
    ensures old(queue.faultsLeft) == 0 ==> id !in queue.work.pel
    ensures old(queue.faultsLeft) == 0 && id in old(queue.work).entries && !succeeded ==>
              Filed(old(queue.work), old(queue.dlq), queue.work, queue.dlq, old(queue.work).entries[id], max)
  {
    hide Within, Readable, Least, Filed, PelKept;
    ghost var (first, dlq) := (queue.work, queue.dlq);
    Disturb(queue, max);
    PelKeptMore(first, queue.work, {id});
    ghost var read := queue.work;
    var ok, messages := queue.ReadRange(WorkKey, At(id), At(id), 1);
    if !ok {
      return;
    }
    OneMessageRead(read, id, messages);
    if |messages| == 0 {
      var acked := Acknowledge(queue, id, max);
      PelKeptAfter(first, read, queue.work, {id});
      return;
    }
    MessagesAreReadable(messages, queue.work, queue.dlq, max);
    if succeeded {
      var acked := Acknowledge(queue, id, max);
      PelKeptAfter(first, read, queue.work, {id});
    } else {
      var written := WriteOff(queue, id, messages[0].values, max);
      PelKeptAfter(first, read, queue.work, {id});
      FiledSince(first, read, dlq, queue.work, queue.dlq, messages[0].values, max);
    }
  }

  // The oldest delivery of a consumer is among those it had before, if it had any.
  lemma OldestOwned(first: Stream, asked: Stream, ids: seq<nat>, name: string)
    requires Least(ids, OwnedBy(asked, name), 1) && PelKept(first, asked, {}) && StreamOk(first) && StreamOk(asked)
    ensures |ids| == 0 ==> OwnedBy(first, name) == {}
    ensures |ids| > 0 ==> ids[0] in asked.pel && ids[0] <= asked.delivered
    ensures |ids| > 0 ==> if ids[0] in first.pel then first.pel[ids[0]] == name else ids[0] > first.delivered
    ensures |ids| > 0 && OwnedBy(first, name) != {} ==>
              IsOldest(first, name, ids[0])
  {
    if |ids| > 0 {
      assert ids[0] in ids && ids == [ids[0]];
    }
    forall x | x in OwnedBy(first, name) ensures ids != [] && ids[0] <= x && ids[0] in first.pel {
      assert x in OwnedBy(asked, name);
    }
  }

  lemma OneMessageRead(s: Stream, id: nat, messages: seq<Message>)
    requires FromStream(messages, s) && Least(Ids(messages), InRange(s, At(id), At(id)), 1)
    ensures |messages| == 0 <==> id !in s.entries
    ensures |messages| > 0 ==> messages[0].values == s.entries[id]
  {
    if |messages| > 0 {
      assert Ids(messages)[0] in Ids(messages);
    }
    if id in s.entries {
      assert id in InRange(s, At(id), At(id));
    }
  }

  // What holds of the state a call began with holds of the state before the claims that preceded it.
  lemma FiledSince(first: Stream, read: Stream, dlq: Stream, work: Stream, letters: Stream, values: Body, max: int)
    requires Untouched(first, dlq, read, dlq)
    ensures Filed(read, dlq, work, letters, values, max) ==> Filed(first, dlq, work, letters, values, max)
  {
    if Filed(read, dlq, work, letters, values, max) {
      var k: nat :| k < max && values.attempts == Itoa(k) && FiledAs(read, dlq, work, letters, values.file, k + 1, max);
      assert FiledAs(first, dlq, work, letters, values.file, k + 1, max);
    }
  }

  lemma FiledAfter(first: Stream, read: Stream, dlq: Stream, work: Stream, letters: Stream, id: nat, succeeded: bool,
                   max: int)
    requires Untouched(first, dlq, read, dlq) && PelKept(first, read, {}) && StreamOk(first)
    requires Settles(read, dlq, work, letters, id, succeeded, max)
    ensures Settles(first, dlq, work, letters, id, succeeded, max)
    ensures id in first.entries && Filed(read, dlq, work, letters, read.entries[id], max) ==>
              Filed(first, dlq, work, letters, first.entries[id], max)
  {
    hide Filed, PelKept;
    PelKeptAfter(first, read, work, {id});
    if id in first.entries {
      FiledSince(first, read, dlq, work, letters, first.entries[id], max);
    }
  }

  /** Every listed pod once. */
  method HandleCompletedPods(queue: Valkey, list: map<string, Pod>, max: int)
    requires Sound(queue, max)
    modifies queue
    ensures Sound(queue, max) && StaysEmpty(old(queue.work), old(queue.dlq), queue.work, queue.dlq)
    ensures queue.faultsLeft <= old(queue.faultsLeft)
    // Whatever fails, only deliveries of completed pods leave the pending list, and those with a body only
    // when the pod succeeded or the message got a successor.
    ensures forall x :: x in old(queue.work).pel && x !in queue.work.pel ==>
              ListedCompleted(list, old(queue.work).pel[x])
    ensures forall x :: x in old(queue.work).pel && x in old(queue.work).entries && x !in queue.work.pel ==>
              Excused(list, old(queue.work), old(queue.dlq), queue.work, queue.dlq, x, max)
    // With no failing call the oldest delivery of each completed pod does.
    ensures old(queue.faultsLeft) == 0 ==>
              forall name, x :: ListedCompleted(list, name) && IsOldest(old(queue.work), name, x) ==>
                x !in queue.work.pel
  {
    hide Within, Filed, IsCompleted, Excused, PelKept, IsOldest, Retains;
    ghost var (first, letters) := (queue.work, queue.dlq);
    ghost var gone: set<nat> := {};
    PelKeptReflexive(first);
    var todo := list.Keys;
    while todo != {}
      invariant Sound(queue, max) && todo <= list.Keys && queue.faultsLeft <= old(queue.faultsLeft)
      invariant StaysEmpty(first, letters, queue.work, queue.dlq)
      invariant first.lastId <= queue.work.lastId && letters.lastId <= queue.dlq.lastId
      invariant Retains(first, queue.work, 0) && PelKept(first, queue.work, gone)
      invariant forall x :: x in gone && x in first.pel ==>
                  first.pel[x] !in todo && ListedCompleted(list, first.pel[x])
      invariant forall x :: x in first.pel && x in first.entries && x !in queue.work.pel ==>
                  Excused(list, first, letters, queue.work, queue.dlq, x, max)
      invariant old(queue.faultsLeft) == 0 ==> forall name, x ::
                  name !in todo && ListedCompleted(list, name) && IsOldest(first, name, x) ==> x !in queue.work.pel
      decreases todo
    {
      var name :| name in todo;
      ghost var (work, dlq) := (queue.work, queue.dlq);
      OldestStays(first, work, gone, name);
      ghost var id := HandlePod(queue, name, list[name], max);
      ghost var more := if id.None? then {} else {id.value};
      HandledStep(list, first, letters, work, dlq, queue.work, queue.dlq, gone, name, id, max);
      NoReturn(first, work, queue.work, gone, more);
      todo := todo - {name};
      gone := gone + more;
    }
    GoneOnly(first, queue.work, gone);
  }

  lemma PelKeptReflexive(s: Stream)
    ensures PelKept(s, s, {}) && Retains(s, s, 0)
  {
  }

  lemma GoneOnly(first: Stream, work: Stream, gone: set<nat>)
    requires PelKept(first, work, gone)
    ensures forall x :: x in first.pel && x !in work.pel ==> x in gone
  {
  }

  // A consumer none of whose deliveries has left still has the same oldest one.
  lemma OldestStays(first: Stream, work: Stream, gone: set<nat>, name: string)
    requires StreamOk(first) && PelKept(first, work, gone)
    requires forall x :: x in gone && x in first.pel ==> first.pel[x] != name
    ensures forall x :: IsOldest(first, name, x) ==> OwnedBy(work, name) != {}
    ensures forall x, y :: IsOldest(first, name, x) && IsOldest(work, name, y) ==> x == y
  {
    forall x | IsOldest(first, name, x)
      ensures IsOldest(work, name, x) && forall y :: IsOldest(work, name, y) ==> x == y
    {
      assert x in OwnedBy(work, name);
      forall y | y in OwnedBy(work, name) ensures x <= y {
        assert y in first.pel ==> y in OwnedBy(first, name);
      }
    }
  }

  // What has left does not come back.
  lemma NoReturn(first: Stream, work: Stream, work': Stream, gone: set<nat>, more: set<nat>)
    requires StreamOk(first) && PelKept(first, work, gone) && PelKept(work, work', more)
    ensures PelKept(first, work', gone + more)
    ensures forall name, x :: IsOldest(first, name, x) && x !in work.pel ==> x !in work'.pel
  {
  }

  // The messages that had left stay excused, and so is the one that left now.
  lemma HandledStep(list: map<string, Pod>, first: Stream, letters: Stream, work: Stream, dlq: Stream,
                    work': Stream, dlq': Stream, gone: set<nat>, name: string, id: Option<nat>, max: int)
    requires StreamOk(first) && StreamOk(work) && StreamOk(dlq) && Retains(first, work, 0)
    requires first.lastId <= work.lastId && letters.lastId <= dlq.lastId
    requires PelKept(first, work, gone) && PelKept(work, work', if id.None? then {} else {id.value})
    requires id.Some? ==> if id.value in work.pel then work.pel[id.value] == name else id.value > work.delivered
    requires || Untouched(work, dlq, work', dlq')
             || (id.Some? && id.value in work.entries && Filed(work, dlq, work', dlq', work.entries[id.value], max))
    requires id.Some? && id.value in work.entries && id.value in work.pel && id.value !in work'.pel ==>
               ListedSucceeded(list, name) || Filed(work, dlq, work', dlq', work.entries[id.value], max)
    requires forall x :: x in first.pel && x in first.entries && x !in work.pel ==>
               Excused(list, first, letters, work, dlq, x, max)
    ensures Retains(first, work', 0) && first.lastId <= work'.lastId && letters.lastId <= dlq'.lastId
    ensures id.Some? && id.value in first.pel ==> first.pel[id.value] == name
    ensures forall x :: x in first.pel && x in first.entries && x !in work'.pel ==>
              Excused(list, first, letters, work', dlq', x, max)
  {
    hide Filed, Repaid;
    var values := if id.Some? && id.value in work.entries then work.entries[id.value] else Body("", "");
    StepRetains(work, dlq, work', dlq', values, max);
    forall x | x in first.pel && x in first.entries && x !in work'.pel
      ensures Excused(list, first, letters, work', dlq', x, max)
    {
      if x !in work.pel {
        if !ListedSucceeded(list, first.pel[x]) {
          RepaidStays(first, letters, work, dlq, work', dlq', first.entries[x], max);
        }
      } else if !ListedSucceeded(list, first.pel[x]) {
        FiledIsRepaid(work, dlq, work', dlq', work.entries[x], max);
        RepaidSince(first, letters, work, dlq, work', dlq', work.entries[x], max);
      }
    }
  }

  // ---------------------------------------------------------------- the reclaimer

  /** One claimed message: settled, and then deleted from the stream. `settled` is the stream before the deletion. */
  method ReclaimOne(queue: Valkey, message: Message, workDone: bool, max: int) returns (ghost settled: Stream)
    requires Sound(queue, max) && message.id <= queue.work.delivered
    requires message.id in queue.work.entries && message.values == queue.work.entries[message.id]
    modifies queue
    ensures Sound(queue, max) && queue.faultsLeft <= old(queue.faultsLeft)
    ensures Settles(old(queue.work), old(queue.dlq), settled, queue.dlq, message.id, workDone, max)
    ensures Deletes(settled, queue.work, message.id)
    ensures old(queue.faultsLeft) == 0 ==>
              && message.id !in queue.work.pel && message.id !in queue.work.entries
              && (!workDone ==> Filed(old(queue.work), old(queue.dlq), settled, queue.dlq, message.values, max))
  {
    hide Within, Readable, Filed, PelKept;
    ghost var (first, dlq) := (queue.work, queue.dlq);
    BodyIsReadable(first, dlq, message.id, max);
    PelKeptReflexive(first);
    PelKeptMore(first, first, {message.id});
    var ok;
    if workDone {
      ok := Acknowledge(queue, message.id, max);
    } else {
      ok := WriteOff(queue, message.id, message.values, max);
    }
    settled := queue.work;
    PelKeptReflexive(settled);
    if ok {
      var deleted := DeleteMessage(queue, message.id, max);
      KeptOut(settled, queue.work, message.id);
    }
  }

  lemma BodyIsReadable(work: Stream, dlq: Stream, id: nat, max: int)
    requires Within(work, dlq, max) && id in work.entries
    ensures Readable(work.entries[id], max)
  {
  }

  lemma KeptOut(s: Stream, s': Stream, id: nat)
    requires PelKept(s, s', {}) && id <= s.delivered && id !in s.pel
    ensures id !in s'.pel
  {
  }

  // At most this entry was deleted.
  ghost predicate Deletes(s: Stream, s': Stream, id: nat) {
    && PelKept(s, s', {}) && s'.lastId == s.lastId
    && (s'.entries == s.entries - {id} || s'.entries == s.entries)
  }

  // What has become of a claimed message: it left the pending list only with its work done or a successor
  // written, and `refiled` are those that got one.
  ghost predicate Justified(work: Stream, dlq: Stream, work': Stream, dlq': Stream, message: Message, workDone: bool,
                            refiled: set<nat>, max: int)
  {
    && (message.id !in work'.pel ==> workDone || message.id in refiled)
    && (message.id in refiled ==> !workDone && Repaid(work, dlq, work', dlq', message.values, max))
  }

  // A claimed message before its turn.
  ghost predicate Awaits(work: Stream, message: Message, refiled: set<nat>) {
    && message.id in work.entries && message.values == work.entries[message.id]
    && message.id in work.pel && message.id !in refiled
  }

  // Settled and deleted, with a successor exactly if its work was not done.
  ghost predicate Cleared(work: Stream, id: nat, workDone: bool, refiled: set<nat>) {
    id !in work.pel && id !in work.entries && (id in refiled <==> !workDone)
  }

  method ReclaimAll(queue: Valkey, messages: seq<Message>, consumers: map<nat, string>, succeeded: set<string>,
                    max: int) returns (ghost refiled: set<nat>)
    requires Sound(queue, max) && FromStream(messages, queue.work) && Ascending(Ids(messages))
    requires forall i :: 0 <= i < |messages| ==> messages[i].id in consumers && messages[i].id in queue.work.pel
    modifies queue
    ensures Sound(queue, max) && queue.faultsLeft <= old(queue.faultsLeft)
    ensures messages == [] ==> queue.work == old(queue.work) && queue.dlq == old(queue.dlq)
    ensures PelKept(old(queue.work), queue.work, Members(Ids(messages)))
    // As many messages and letters are written as messages were refiled, and never more than one for each.
    ensures refiled <= Members(Ids(messages))
    ensures queue.work.lastId + queue.dlq.lastId == old(queue.work).lastId + old(queue.dlq).lastId + |refiled|
    ensures forall i :: 0 <= i < |messages| ==>
              Justified(old(queue.work), old(queue.dlq), queue.work, queue.dlq, messages[i],
                        consumers[messages[i].id] in succeeded, refiled, max)
    ensures old(queue.faultsLeft) == 0 ==> forall i :: 0 <= i < |messages| ==>
              Cleared(queue.work, messages[i].id, consumers[messages[i].id] in succeeded, refiled)
  {
    hide Within, Readable, PelKept, Filed, Repaid, Settles, Deletes, Justified, Cleared, Awaits, Advanced;
    ghost var (first, letters) := (queue.work, queue.dlq);
    ghost var calm := queue.faultsLeft == 0;
    refiled := {};
    StartOf(first, letters, messages, consumers, succeeded, calm, max);
    for i := 0 to |messages|
      invariant Sound(queue, max) && queue.faultsLeft <= old(queue.faultsLeft)
      invariant i == 0 ==> queue.work == first && queue.dlq == letters
      invariant Advanced(first, letters, queue.work, queue.dlq, messages, consumers, succeeded, i, refiled, calm, max)
    {
      ghost var (work, dlq) := (queue.work, queue.dlq);
      NextAwaits(first, letters, work, dlq, messages, consumers, succeeded, i, refiled, calm, max);
      ghost var settled := ReclaimOne(queue, messages[i], consumers[messages[i].id] in succeeded, max);
      ghost var grown := if Wrote(work, dlq, settled, queue.dlq) then refiled + {messages[i].id} else refiled;
      Advance(first, letters, work, dlq, settled, queue.work, queue.dlq, messages, consumers, succeeded, i, refiled,
              grown, calm, max);
      refiled := grown;
    }
    EndOf(first, letters, queue.work, queue.dlq, messages, consumers, succeeded, refiled, calm, max);
  }

  // The first i messages have been reclaimed, the others have not been touched.
  ghost predicate Advanced(first: Stream, letters: Stream, work: Stream, dlq: Stream, messages: seq<Message>,
                           consumers: map<nat, string>, succeeded: set<string>, i: nat, refiled: set<nat>,
                           calm: bool, max: int)
  {
    && i <= |messages| && (forall j :: 0 <= j < |messages| ==> messages[j].id in consumers)
    && PelKept(first, work, Members(Ids(messages))) && refiled <= Members(Ids(messages))
    && first.lastId <= work.lastId && letters.lastId <= dlq.lastId && first.delivered <= work.delivered
    && work.lastId + dlq.lastId == first.lastId + letters.lastId + |refiled|
    && (forall j :: i <= j < |messages| ==> Awaits(work, messages[j], refiled))
    && (forall j :: 0 <= j < i ==>
          Justified(first, letters, work, dlq, messages[j], consumers[messages[j].id] in succeeded, refiled, max))
    && (calm ==> forall j :: 0 <= j < i ==>
          Cleared(work, messages[j].id, consumers[messages[j].id] in succeeded, refiled))
  }

  lemma StartOf(first: Stream, letters: Stream, messages: seq<Message>, consumers: map<nat, string>,
                succeeded: set<string>, calm: bool, max: int)
    requires FromStream(messages, first)
    requires forall i :: 0 <= i < |messages| ==> messages[i].id in consumers && messages[i].id in first.pel
    ensures Advanced(first, letters, first, letters, messages, consumers, succeeded, 0, {}, calm, max)
  {
  }

  lemma EndOf(first: Stream, letters: Stream, work: Stream, dlq: Stream, messages: seq<Message>,
              consumers: map<nat, string>, succeeded: set<string>, refiled: set<nat>, calm: bool, max: int)
    requires Advanced(first, letters, work, dlq, messages, consumers, succeeded, |messages|, refiled, calm, max)
    ensures PelKept(first, work, Members(Ids(messages))) && refiled <= Members(Ids(messages))
    ensures forall j :: 0 <= j < |messages| ==> messages[j].id in consumers
    ensures work.lastId + dlq.lastId == first.lastId + letters.lastId + |refiled|
    ensures forall j :: 0 <= j < |messages| ==>
              Justified(first, letters, work, dlq, messages[j], consumers[messages[j].id] in succeeded, refiled, max)
    ensures calm ==> forall j :: 0 <= j < |messages| ==>
              Cleared(work, messages[j].id, consumers[messages[j].id] in succeeded, refiled)
  {
    hide PelKept, Justified, Cleared;
  }

  lemma NextAwaits(first: Stream, letters: Stream, work: Stream, dlq: Stream, messages: seq<Message>,
                   consumers: map<nat, string>, succeeded: set<string>, i: nat, refiled: set<nat>, calm: bool, max: int)
    requires Advanced(first, letters, work, dlq, messages, consumers, succeeded, i, refiled, calm, max)
    requires i < |messages| && StreamOk(work)
    ensures var m := messages[i]; m.id in consumers && m.id in work.pel && m.id !in refiled && m.id <= work.delivered
    ensures messages[i].id in work.entries && messages[i].values == work.entries[messages[i].id]
  {
    hide PelKept, Justified, Cleared;
  }

  lemma Advance(first: Stream, letters: Stream, work: Stream, dlq: Stream, settled: Stream, work': Stream,
                dlq': Stream, messages: seq<Message>, consumers: map<nat, string>, succeeded: set<string>, i: nat,
                refiled: set<nat>, grown: set<nat>, calm: bool, max: int)
    requires Advanced(first, letters, work, dlq, messages, consumers, succeeded, i, refiled, calm, max)
    requires i < |messages| && StreamOk(first) && StreamOk(work) && StreamOk(dlq)
    requires Ascending(Ids(messages)) && forall j :: 0 <= j < |messages| ==> messages[j].id in first.pel
    requires Settles(work, dlq, settled, dlq', messages[i].id, consumers[messages[i].id] in succeeded, max)
    requires Deletes(settled, work', messages[i].id)
    requires grown == if Wrote(work, dlq, settled, dlq') then refiled + {messages[i].id} else refiled
    requires calm ==>
               && messages[i].id !in work'.pel && messages[i].id !in work'.entries
               && (consumers[messages[i].id] !in succeeded ==> Filed(work, dlq, settled, dlq', messages[i].values, max))
    ensures Advanced(first, letters, work', dlq', messages, consumers, succeeded, i + 1, grown, calm, max)
  {
    hide PelKept, Filed, Repaid, Settles, Deletes, Justified, Cleared, Awaits, Wrote, Remains, Ascending, Retains;
    hide Members, Stays, Ids;
    NextAwaits(first, letters, work, dlq, messages, consumers, succeeded, i, refiled, calm, max);
    IdsDiffer(messages);
    Turn(first, letters, work, dlq, settled, work', dlq', messages[i], consumers[messages[i].id] in succeeded,
         Members(Ids(messages)), refiled, grown, calm, max);
    EarlierStay(first, letters, work, dlq, work', dlq', messages, consumers, succeeded, i, refiled, grown, calm, max);
    LaterStay(first, letters, work, dlq, work', dlq', messages, i, refiled, grown);
  }

  // One message's turn: what it becomes, and what stays as it was.
  lemma Turn(first: Stream, letters: Stream, work: Stream, dlq: Stream, settled: Stream, work': Stream, dlq': Stream,
             message: Message, workDone: bool, all: set<nat>, refiled: set<nat>, grown: set<nat>, calm: bool, max: int)
    requires StreamOk(first) && StreamOk(work) && StreamOk(dlq) && PelKept(first, work, all) && message.id in all
    requires first.lastId <= work.lastId && letters.lastId <= dlq.lastId && first.delivered <= work.delivered
    requires message.id in first.pel && message.id in work.entries && message.values == work.entries[message.id]
    requires message.id in work.pel && message.id !in refiled && refiled <= all
    requires Settles(work, dlq, settled, dlq', message.id, workDone, max) && Deletes(settled, work', message.id)
    requires grown == if Wrote(work, dlq, settled, dlq') then refiled + {message.id} else refiled
    requires calm ==>
               && message.id !in work'.pel && message.id !in work'.entries
               && (!workDone ==> Filed(work, dlq, settled, dlq', message.values, max))
    ensures PelKept(first, work', all) && grown <= all && first.delivered <= work'.delivered
    ensures first.lastId <= work'.lastId && letters.lastId <= dlq'.lastId
    ensures work'.lastId + dlq'.lastId - |grown| == work.lastId + dlq.lastId - |refiled|
    ensures Stays(first, letters, work, dlq, work', dlq', message.id, refiled, grown)
    ensures Justified(first, letters, work', dlq', message, workDone, grown, max)
    ensures calm ==> Cleared(work', message.id, workDone, grown)
  {
    hide PelKept, Filed, Repaid, Settles, Deletes, Justified, Cleared, Wrote, Remains, Retains;
    ReclaimStep(first, letters, work, dlq, settled, work', dlq', message, workDone, all, max);
    IsJustified(first, letters, work', dlq', message, workDone, grown, max);
    if calm {
      IsCleared(work, dlq, settled, work', dlq', message, workDone, grown, max);
    }
  }

  // What one message's turn leaves as it was for the others.
  ghost predicate Stays(first: Stream, letters: Stream, work: Stream, dlq: Stream, work': Stream, dlq': Stream, id: nat,
                        refiled: set<nat>, grown: set<nat>)
  {
    && first.delivered <= work.delivered <= work.lastId && PelKept(work, work', {id}) && Remains(work, work', id)
    && Retains(work, work', first.lastId) && Retains(dlq, dlq', letters.lastId)
    && refiled <= grown <= refiled + {id}
  }

  lemma EarlierStay(first: Stream, letters: Stream, work: Stream, dlq: Stream, work': Stream, dlq': Stream,
                    messages: seq<Message>, consumers: map<nat, string>, succeeded: set<string>, i: nat,
                    refiled: set<nat>, grown: set<nat>, calm: bool, max: int)
    requires i < |messages| && Stays(first, letters, work, dlq, work', dlq', messages[i].id, refiled, grown)
    requires StreamOk(first)
    requires forall j :: 0 <= j < |messages| ==> messages[j].id in first.pel && messages[j].id in consumers
    requires forall j, k :: 0 <= j < k < |messages| ==> messages[j].id < messages[k].id
    requires forall j :: 0 <= j < i ==>
               Justified(first, letters, work, dlq, messages[j], consumers[messages[j].id] in succeeded, refiled, max)
    requires calm ==> forall j :: 0 <= j < i ==>
               Cleared(work, messages[j].id, consumers[messages[j].id] in succeeded, refiled)
    ensures forall j :: 0 <= j < i ==>
              Justified(first, letters, work', dlq', messages[j], consumers[messages[j].id] in succeeded, grown, max)
    ensures calm ==> forall j :: 0 <= j < i ==>
              Cleared(work', messages[j].id, consumers[messages[j].id] in succeeded, grown)
  {
    hide Justified, Cleared, PelKept, Remains, Retains;
    forall j | 0 <= j < i
      ensures Justified(first, letters, work', dlq', messages[j], consumers[messages[j].id] in succeeded, grown, max)
      ensures calm ==> Cleared(work', messages[j].id, consumers[messages[j].id] in succeeded, grown)
    {
      OthersStay(first, letters, work, dlq, work', dlq', messages[j], consumers[messages[j].id] in succeeded,
                 messages[i].id, refiled, grown, max);
    }
  }

  lemma LaterStay(first: Stream, letters: Stream, work: Stream, dlq: Stream, work': Stream, dlq': Stream,
                  messages: seq<Message>, i: nat, refiled: set<nat>, grown: set<nat>)
    requires i < |messages| && Stays(first, letters, work, dlq, work', dlq', messages[i].id, refiled, grown)
    requires forall j, k :: 0 <= j < k < |messages| ==> messages[j].id < messages[k].id
    requires forall j :: i <= j < |messages| ==> Awaits(work, messages[j], refiled)
    ensures forall j :: i < j < |messages| ==> Awaits(work', messages[j], grown)
  {
    hide PelKept, Remains, Retains, Awaits;
    forall j | i < j < |messages| ensures Awaits(work', messages[j], grown) {
      AwaitsStays(work, work', messages[j], messages[i].id, refiled, grown);
    }
  }

  lemma IdsDiffer(messages: seq<Message>)
    requires Ascending(Ids(messages))
    ensures forall i, j :: 0 <= i < j < |messages| ==> messages[i].id < messages[j].id
    ensures forall i :: 0 <= i < |messages| ==> messages[i].id in Members(Ids(messages))
  {
    forall i, j | 0 <= i < j < |messages| ensures messages[i].id < messages[j].id {
      assert Ids(messages)[i] < Ids(messages)[j];
    }
    forall i | 0 <= i < |messages| ensures messages[i].id in Members(Ids(messages)) {
      assert Ids(messages)[i] == messages[i].id;
    }
  }

  lemma IsJustified(first: Stream, letters: Stream, work': Stream, dlq': Stream, message: Message, workDone: bool,
                    refiled: set<nat>, max: int)
    requires message.id !in work'.pel ==> workDone || message.id in refiled
    requires message.id in refiled ==> !workDone && Repaid(first, letters, work', dlq', message.values, max)
    ensures Justified(first, letters, work', dlq', message, workDone, refiled, max)
  {
  }

  lemma AwaitsStays(work: Stream, work': Stream, message: Message, id: nat, refiled: set<nat>, grown: set<nat>)
    requires Awaits(work, message, refiled) && Remains(work, work', id) && message.id != id && grown <= refiled + {id}
    ensures Awaits(work', message, grown)
  {
  }

  ghost predicate Wrote(work: Stream, dlq: Stream, work': Stream, dlq': Stream) {
    work'.lastId + dlq'.lastId > work.lastId + dlq.lastId
  }

  // One message more, at most one new message or letter, and its deletion.
  lemma ReclaimStep(first: Stream, letters: Stream, work: Stream, dlq: Stream, settled: Stream, work': Stream,
                    dlq': Stream, message: Message, workDone: bool, all: set<nat>, max: int)
    requires StreamOk(first) && StreamOk(work) && StreamOk(dlq) && PelKept(first, work, all) && message.id in all
    requires first.lastId <= work.lastId && letters.lastId <= dlq.lastId && message.id <= first.lastId
    requires message.id in work.entries && message.values == work.entries[message.id] && message.id in work.pel
    requires Settles(work, dlq, settled, dlq', message.id, workDone, max) && Deletes(settled, work', message.id)
    ensures PelKept(first, work', all) && PelKept(work, work', {message.id})
    ensures first.lastId <= work'.lastId && letters.lastId <= dlq'.lastId && first.delivered <= work'.delivered
    ensures Retains(work, work', first.lastId) && Retains(dlq, dlq', letters.lastId)
    ensures Remains(work, work', message.id)
    ensures var written := Wrote(work, dlq, settled, dlq');
            && work'.lastId + dlq'.lastId == work.lastId + dlq.lastId + (if written then 1 else 0)
            && (message.id !in work'.pel ==> workDone || written)
            && (written ==> !workDone && Repaid(first, letters, work', dlq', message.values, max))
  {
    hide Repaid, Filed, PelKept;
    DeletedKeeps(first, work, settled, work', all, message.id);
    if Wrote(work, dlq, settled, dlq') {
      FiledShape(work, dlq, settled, dlq', message.values, max);
      FiledIsRepaid(work, dlq, settled, dlq', message.values, max);
      RepaidSince(first, letters, work, dlq, settled, dlq', message.values, max);
      DeletedRemains(work, settled, work', message.id, first.lastId);
      RepaidStays(first, letters, settled, dlq', work', dlq', message.values, max);
    } else {
      if Filed(work, dlq, settled, dlq', message.values, max) {
        FiledShape(work, dlq, settled, dlq', message.values, max);
      }
      DeletedRemains(work, settled, work', message.id, first.lastId);
    }
  }

  // Other messages stay where they are, and what is new is newer than all of them.
  ghost predicate Remains(s: Stream, s': Stream, id: nat) {
    && (forall x :: x in s.entries && x != id ==> x in s'.entries && s'.entries[x] == s.entries[x])
    && (forall x :: x in s.pel && x != id ==> x in s'.pel)
    && (forall x :: x in s'.entries ==> x in s.entries || x > s.lastId)
  }

  lemma DeletedRemains(work: Stream, settled: Stream, work': Stream, id: nat, bound: nat)
    requires Deletes(settled, work', id) && Retains(work, settled, 0) && StreamOk(work) && id <= bound
    requires forall x :: x in settled.entries ==> x in work.entries || x > work.lastId
    requires PelKept(work, work', {id})
    ensures Remains(work, work', id) && Retains(work, work', bound) && Retains(settled, work', bound)
  {
  }

  lemma DeletedKeeps(first: Stream, work: Stream, settled: Stream, work': Stream, all: set<nat>, id: nat)
    requires StreamOk(first) && StreamOk(work) && PelKept(first, work, all) && id in all
    requires PelKept(work, settled, {id}) && PelKept(settled, work', {})
    ensures PelKept(first, work', all) && PelKept(work, work', {id})
    ensures id in settled.pel ==> id in work'.pel
    ensures first.delivered <= work'.delivered
  {
    PelKeptAll(first, work, work', all, id);
  }

  lemma OthersStay(first: Stream, letters: Stream, work: Stream, dlq: Stream, work': Stream, dlq': Stream,
                   message: Message, workDone: bool, id: nat, refiled: set<nat>, grown: set<nat>, max: int)
    requires StreamOk(first) && message.id in first.pel && message.id != id
    requires first.delivered <= work.delivered <= work.lastId && PelKept(work, work', {id}) && Remains(work, work', id)
    requires Retains(work, work', first.lastId) && Retains(dlq, dlq', letters.lastId)
    requires refiled <= grown <= refiled + {id}
    requires Justified(first, letters, work, dlq, message, workDone, refiled, max)
    ensures Justified(first, letters, work', dlq', message, workDone, grown, max)
    ensures Cleared(work, message.id, workDone, refiled) ==> Cleared(work', message.id, workDone, grown)
  {
    hide Repaid;
    if message.id in refiled {
      RepaidStays(first, letters, work, dlq, work', dlq', message.values, max);
    }
  }

  lemma IsCleared(work: Stream, dlq: Stream, settled: Stream, work': Stream, dlq': Stream, message: Message,
                  workDone: bool, refiled: set<nat>, max: int)
    requires message.id !in work'.pel && message.id !in work'.entries
    requires !workDone ==> Filed(work, dlq, settled, dlq', message.values, max)
    requires Wrote(work, dlq, settled, dlq') ==> !workDone
    requires message.id in refiled <==> Wrote(work, dlq, settled, dlq')
    ensures Cleared(work', message.id, workDone, refiled)
  {
  }

  // The idle deliveries within reach whose consumer the pod list does not shield, with their consumers.
  method FindOrphans(queue: Valkey, list: map<string, Pod>, max: int)
    returns (ok: bool, ids: seq<nat>, consumers: map<nat, string>, succeeded: set<string>)
    requires Sound(queue, max)
    modifies queue
    ensures Sound(queue, max) && Untouched(old(queue.work), old(queue.dlq), queue.work, queue.dlq)
    ensures PelKept(old(queue.work), queue.work, {}) && old(queue.work).delivered <= queue.work.delivered
    ensures queue.faultsLeft <= old(queue.faultsLeft) && (old(queue.faultsLeft) == 0 ==> ok)
    ensures old(queue.idle) <= queue.idle
    ensures Ascending(ids) && forall id :: id in ids <==> id in consumers
    ensures forall name :: name in succeeded <==> ListedSucceeded(list, name)
    ensures forall x :: x in consumers && x in old(queue.work).pel ==>
              consumers[x] == old(queue.work).pel[x] && !Shielded(list, old(queue.work).pel[x])
    ensures ok ==> forall x ::
              Reached(old(queue.work), old(queue.idle), x) && !Shielded(list, old(queue.work).pel[x]) ==> x in consumers
  {
    hide Within, PelKept, Reached, Shielded, Alive, Ascending, Least;
    ghost var (first, idle) := (queue.work, queue.idle);
    ids, consumers := [], map[];
    Disturb(queue, max);
    ghost var asked := queue.work;
    var pending;
    ok, pending := queue.GetPendingEntryDetails(100);
    var running;
    running, succeeded := ClassifyPods(list);
    NothingAscends();
    if !ok {
      return;
    }
    ReachedAreAsked(first, asked, idle, queue.Stale(), PendingIds(pending));
    if |pending| == 0 {
      NoneAsked(first, idle, PendingIds(pending));
      return;
    }
    LeastAscends(PendingIds(pending), queue.Stale(), 100);
    ids, consumers := FilterEntries(pending, running);
    ShieldedAreRunning(list, running);
    FilteredFits(first, asked, idle, pending, running, consumers);
  }

  lemma NothingAscends()
    ensures Ascending([])
  {
  }

  lemma NoneAsked(first: Stream, idle: set<nat>, ids: seq<nat>)
    requires |ids| == 0 && forall x :: Reached(first, idle, x) ==> x in ids
    ensures forall x :: !Reached(first, idle, x)
  {
  }

  lemma ReachedAreAsked(first: Stream, asked: Stream, idle: set<nat>, stale: set<nat>, ids: seq<nat>)
    requires StreamOk(first) && PelKept(first, asked, {}) && Least(ids, stale, 100)
    requires (forall x :: x in stale ==> x in asked.pel) && (forall x :: x in asked.pel && x in idle ==> x in stale)
    ensures forall x :: Reached(first, idle, x) ==> x in first.pel && x in idle && x in ids
  {
    hide Least;
    forall x | Reached(first, idle, x) ensures x in ids {
      WithinReach(ids, stale, 100, x, Before(first, x));
    }
  }

  lemma ShieldedAreRunning(list: map<string, Pod>, running: set<string>)
    requires running == set n | n in list && Alive(list[n])
    ensures forall n :: n in running <==> Shielded(list, n)
  {
    forall n ensures n in running <==> Shielded(list, n) {
      if n in list {
        PodFields(list[n]);
      }
    }
  }

  lemma FilteredFits(first: Stream, asked: Stream, idle: set<nat>, pending: seq<PendingEntry>, running: set<string>,
                     consumers: map<nat, string>)
    requires PelKept(first, asked, {})
    requires forall i :: 0 <= i < |pending| ==>
               pending[i].id in asked.pel && pending[i].consumer == asked.pel[pending[i].id]
    requires forall i :: 0 <= i < |pending| ==>
               (pending[i].id in consumers <==> pending[i].consumer !in running)
               && (pending[i].id in consumers ==> consumers[pending[i].id] == pending[i].consumer)
    requires forall x :: x in consumers ==> x in PendingIds(pending)
    requires forall x :: Reached(first, idle, x) ==> x in first.pel && x in PendingIds(pending)
    ensures forall x :: x in consumers && x in first.pel ==>
              consumers[x] == first.pel[x] && first.pel[x] !in running
    ensures forall x :: Reached(first, idle, x) && first.pel[x] !in running ==> x in consumers
  {
    hide Reached;
    forall x | x in PendingIds(pending) && x in first.pel
      ensures x in consumers <==> first.pel[x] !in running
      ensures x in consumers ==> consumers[x] == first.pel[x]
    {
      var i :| 0 <= i < |pending| && PendingIds(pending)[i] == x;
      assert pending[i].id == x;
    }
  }

  lemma ClaimedFrom(first: Stream, asked: Stream, claimed: Stream, taken: set<nat>)
    requires StreamOk(first) && PelKept(first, asked, {}) && asked.entries == first.entries
    requires claimed == XClaim(asked, taken, RECLAIMER)
    ensures forall x :: x in first.pel && x !in taken ==> x in claimed.pel && claimed.pel[x] == first.pel[x]
    ensures forall x :: x in first.pel && x in first.entries ==> x in claimed.pel
    ensures forall x :: x in taken && x !in first.entries ==> x !in claimed.pel
    ensures first.delivered <= claimed.delivered
  {
  }

  /** One pass of the reclaimer. `refiled` are the messages it wrote once more or dead-lettered. */
  method RunReclaimer(queue: Valkey, list: map<string, Pod>, max: int) returns (ghost refiled: set<nat>)
    requires Sound(queue, max)
    modifies queue
    ensures Sound(queue, max) && StaysEmpty(old(queue.work), old(queue.dlq), queue.work, queue.dlq)
    ensures queue.faultsLeft <= old(queue.faultsLeft)
    // Whatever fails: a message the pod list shields stays with its consumer, and one with a body leaves the
    // pending list only when its consumer is listed as succeeded or it got a successor.
    ensures forall x :: x in old(queue.work).pel && Shielded(list, old(queue.work).pel[x]) ==>
              x in queue.work.pel && queue.work.pel[x] == old(queue.work).pel[x]
    ensures forall x :: x in old(queue.work).pel && x in old(queue.work).entries && x !in queue.work.pel ==>
              Excused(list, old(queue.work), old(queue.dlq), queue.work, queue.dlq, x, max)
    // As many messages and letters are written as messages were refiled, none of them for a succeeded pod.
    ensures queue.work.lastId + queue.dlq.lastId == old(queue.work).lastId + old(queue.dlq).lastId + |refiled|
    ensures forall x :: x in refiled && x in old(queue.work).pel ==>
              && x in old(queue.work).entries && !ListedSucceeded(list, old(queue.work).pel[x])
              && Repaid(old(queue.work), old(queue.dlq), queue.work, queue.dlq, old(queue.work).entries[x], max)
    // With no failing call every message within reach that the pod list does not shield is settled and deleted,
    // and those with a body whose pod did not succeed are refiled.
    ensures old(queue.faultsLeft) == 0 ==>
              forall x :: Reached(old(queue.work), old(queue.idle), x) && !Shielded(list, old(queue.work).pel[x]) ==>
                && x !in queue.work.pel
                && (x in old(queue.work).entries ==>
                      && x !in queue.work.entries
                      && (x in refiled <==> !ListedSucceeded(list, old(queue.work).pel[x])))
  {
    hide Within, Readable, PelKept, Reached, Shielded, Ascending, FromStream, Justified, Cleared, Excused, Repaid;
    hide ListedSucceeded;
    refiled := {};
    ghost var (first, letters, idle) := (queue.work, queue.dlq, queue.idle);
    PelKeptReflexive(first);
    var ok, ids, consumers, succeeded := FindOrphans(queue, list, max);
    ghost var found := queue.work;
    PelKeptMore(first, found, {});
    if !ok || |ids| == 0 {
      return;
    }
    Disturb(queue, max);
    PelKeptAfter(first, found, queue.work, {});
    ghost var asked := queue.work;
    ReachedIsIdle(first, asked, idle);
    var messages;
    ghost var taken;
    ok, messages, taken := queue.ClaimMessages(RECLAIMER, ids);
    SameEntriesWithin(asked, queue.work, letters, max);
    ghost var claimed := queue.work;
    ClaimedFrom(first, asked, claimed, taken);
    if !ok {
      return;
    }
    NoneRead(messages, claimed);
    refiled := ReclaimAll(queue, messages, consumers, succeeded, max);
    KeptThrough(first, claimed, queue.work, messages, taken);
    Outcomes(list, first, letters, claimed, queue.work, queue.dlq, messages, consumers, succeeded, refiled, max);
    if old(queue.faultsLeft) == 0 {
      AllCleared(list, first, idle, claimed, queue.work, messages, consumers, succeeded, taken, refiled);
    }
  }

  lemma NoneRead(messages: seq<Message>, claimed: Stream)
    requires FromStream(messages, claimed)
    ensures claimed.entries == map[] ==> messages == []
  {
    assert messages != [] ==> messages[0].id in claimed.entries;
  }

  lemma ReachedIsIdle(first: Stream, asked: Stream, idle: set<nat>)
    requires PelKept(first, asked, {})
    ensures forall x :: Reached(first, idle, x) ==> x in first.pel && x in asked.pel && x in idle
  {
  }

  // A message that was not claimed stays with its consumer; one that left had been claimed and read.
  lemma KeptThrough(first: Stream, claimed: Stream, work: Stream, messages: seq<Message>, taken: set<nat>)
    requires StreamOk(first) && first.delivered <= claimed.delivered
    requires forall x :: x in first.pel && x !in taken ==> x in claimed.pel && claimed.pel[x] == first.pel[x]
    requires forall x :: x in first.pel && x in first.entries ==> x in claimed.pel
    requires PelKept(claimed, work, Members(Ids(messages)))
    requires forall x :: x in Ids(messages) ==> x in taken
    ensures forall x :: x in first.pel && x !in taken ==> x in work.pel && work.pel[x] == first.pel[x]
    ensures forall x :: x in first.pel && x in first.entries && x !in work.pel ==> x in Ids(messages)
  {
  }

  // What became of each claimed message, as seen from the beginning of the pass.
  lemma Outcomes(list: map<string, Pod>, first: Stream, letters: Stream, claimed: Stream, work: Stream, dlq: Stream,
                 messages: seq<Message>, consumers: map<nat, string>, succeeded: set<string>, refiled: set<nat>,
                 max: int)
    requires claimed.entries == first.entries && claimed.lastId == first.lastId && FromStream(messages, claimed)
    requires forall i :: 0 <= i < |messages| ==> messages[i].id in consumers
    requires forall name :: name in succeeded <==> ListedSucceeded(list, name)
    requires forall x :: x in consumers && x in first.pel ==> consumers[x] == first.pel[x]
    requires forall i :: 0 <= i < |messages| ==>
               Justified(claimed, letters, work, dlq, messages[i], consumers[messages[i].id] in succeeded, refiled, max)
    requires forall x :: x in first.pel && x in first.entries && x !in work.pel ==> x in Ids(messages)
    requires refiled <= Members(Ids(messages))
    ensures forall x :: x in first.pel && x in first.entries && x !in work.pel ==>
              Excused(list, first, letters, work, dlq, x, max)
    ensures forall x :: x in refiled && x in first.pel ==>
              && x in first.entries && !ListedSucceeded(list, first.pel[x])
              && Repaid(first, letters, work, dlq, first.entries[x], max)
  {
    hide Repaid, ListedSucceeded;
    forall x | x in Ids(messages) && x in first.pel
      ensures x !in work.pel ==> Excused(list, first, letters, work, dlq, x, max)
      ensures x in first.entries
      ensures x in refiled ==>
                !ListedSucceeded(list, first.pel[x]) && Repaid(first, letters, work, dlq, first.entries[x], max)
    {
      var i :| 0 <= i < |messages| && Ids(messages)[i] == x;
      assert messages[i].id == x && messages[i].values == first.entries[x];
      if x in refiled {
        RepaidSince(first, letters, claimed, letters, work, dlq, messages[i].values, max);
      }
    }
  }

  lemma AllCleared(list: map<string, Pod>, first: Stream, idle: set<nat>, claimed: Stream, work: Stream,
                   messages: seq<Message>, consumers: map<nat, string>, succeeded: set<string>, taken: set<nat>,
                   refiled: set<nat>)
    requires StreamOk(first) && first.delivered <= claimed.delivered
    requires PelKept(claimed, work, Members(Ids(messages)))
    requires forall x :: x in taken && x !in first.entries ==> x !in claimed.pel
    requires forall x :: x in taken && x in first.entries ==> x in Ids(messages)
    requires forall i :: 0 <= i < |messages| ==> messages[i].id in consumers
    requires forall name :: name in succeeded <==> ListedSucceeded(list, name)
    requires forall x :: x in consumers && x in first.pel ==> consumers[x] == first.pel[x]
    requires forall i :: 0 <= i < |messages| ==>
               Cleared(work, messages[i].id, consumers[messages[i].id] in succeeded, refiled)
    ensures forall x :: x in taken && x in first.pel ==>
              && x !in work.pel
              && (x in first.entries ==>
                    x !in work.entries && (x in refiled <==> !ListedSucceeded(list, first.pel[x])))
  {
    hide ListedSucceeded;
    forall x | x in taken && x in first.pel
      ensures x !in work.pel
      ensures x in first.entries ==>
                x !in work.entries && (x in refiled <==> !ListedSucceeded(list, first.pel[x]))
    {
      if x in first.entries {
        var i :| 0 <= i < |messages| && Ids(messages)[i] == x;
        assert messages[i].id == x;
      }
    }
  }

  // What one pass meets: the two pod lists (None: the listing failed), and the Job.
  datatype Pass = Pass(completed: Option<map<string, Pod>>, reclaimed: Option<map<string, Pod>>,
                       jobFailed: bool, podsGone: bool)

  /** Attempts stay within their bounds over any sequence of passes after a flush, flushes included, whatever
      pods they list, whatever is claimed meanwhile and whatever fails. */
  method ReconcileLater(queue: Valkey, max: int, passes: seq<Pass>)
    requires Sound(queue, max)
    modifies queue
    ensures Sound(queue, max)
    // After a flush that emptied the stream nothing comes back, and without another flush no letter changes.
    ensures old(queue.work).entries == map[] ==> queue.work.entries == map[]
    ensures old(queue.work).entries == map[] && (forall i :: 0 <= i < |passes| ==> !passes[i].jobFailed) ==>
              queue.dlq == old(queue.dlq)
  {
    for i := 0 to |passes|
      invariant Sound(queue, max)
      invariant old(queue.work).entries == map[] ==> queue.work.entries == map[]
      invariant old(queue.work).entries == map[] && (forall k :: 0 <= k < i ==> !passes[k].jobFailed) ==>
        queue.dlq == old(queue.dlq)
    {
      if passes[i].completed.Some? {
        HandleCompletedPods(queue, passes[i].completed.value, max);
      }
      if passes[i].reclaimed.Some? {
        ghost var refiled := RunReclaimer(queue, passes[i].reclaimed.value, max);
      }
      Disturb(queue, max);
      if passes[i].jobFailed {
        FlushWithin(queue, max, passes[i].podsGone);
      }
    }
  }
}
