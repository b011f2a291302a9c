/** A run from the empty queue to its verdict: passes that seed the stream, then reconcile passes. */
module Lifecycle {
  import opened Decimal
  import opened Streams
  import opened ValkeyClient
  import opened Protocol
  import opened Accounting
  import opened Clusters
  import opened Flush
  import opened FlushProperties
  import opened Initialize
  import opened Reconciler
  import opened LaterPasses

  // What each pass finds: the Job for the failure check and for the completion check, and whether any of a
  // failed Job's pods still claims.
  datatype JobState = JobState(first: JobLookup, second: JobLookup, podsGone: bool)

  // What a run without failing calls conserves: bounded retries, and every seeded message in one of four places.
  ghost predicate Conserved(start: World, end: World, max: int) {
    && |end.past.writeOffs| <= start.work.lastId * max && end.work.lastId <= start.work.lastId * max
    && (forall f :: |Queued(end, f)| + |Running(end, f)| + |Done(end, Only(f))| + |Dead(end, Only(f))|
                      == |set id | id in start.work.entries && start.work.entries[id].file == f|)
    && (DistinctFiles(start) ==> AttemptsTrue(end, max))
  }

  lemma CalmRunConserves(start: World, run: seq<Label>, max: int)
    requires Seeded(start, max) && Legal(start, run, max) && SmoothRun(start, run) && Loose(Exec(start, run)) == {}
    ensures Conserved(start, Exec(start, run), max)
  {
    hide Seeded, Legal, SmoothRun, Exec, AttemptsTrue, DistinctFiles, Queued, Running, Done, Dead;
    var end := Exec(start, run);
    assert Tidy(end) by {
      assert forall id :: id in end.past.covered && Live(end, id) ==> id in Loose(end);
    }
    RetriesAreBounded(start, run, max);
    forall f
      ensures |Queued(end, f)| + |Running(end, f)| + |Done(end, Only(f))| + |Dead(end, Only(f))|
                == |set id | id in start.work.entries && start.work.entries[id].file == f|
    {
      Conservation(start, run, max, f);
    }
    if DistinctFiles(start) {
      AttemptsTrueRun(start, run, max);
    }
  }

  lemma ListedAreSeeds(start: World, files: seq<string>)
    requires AllListed(start.work, files)
    ensures forall i :: 0 <= i < |files| ==> Seeds(start, files[i])
  {
    forall i | 0 <= i < |files| ensures Seeds(start, files[i]) {
      assert Holds(start.work, files[i]);
    }
  }

  lemma ConservedAttempts(start: World, end: World, max: int)
    requires Conserved(start, end, max) && DistinctFiles(start)
    ensures AttemptsTrue(end, max)
  {
  }

  lemma SeedsAreDistinct(s: Stream)
    requires forall i, j :: i in s.entries && j in s.entries && s.entries[i].file == s.entries[j].file ==> i == j
    ensures DistinctFiles(Start(s))
  {
  }

  lemma SeedIsWithin(work: Stream, max: int)
    requires StreamOk(work) && Fresh(work) && 1 <= max
    ensures Within(work, EMPTY, max)
  {
    forall id | id in work.entries ensures Readable(work.entries[id], max) {
      assert work.entries[id].attempts == Itoa(0);
    }
  }

  lemma FreshIsCalm(work: Stream)
    ensures SmoothRun(Start(work), []) && Loose(Start(work)) == {}
  {
  }

  // Reconcile passes until there is a verdict or they run out.
  method ReconcileUntilVerdict(r: BatchReconciler, jobs: seq<JobState>)
    returns (verdict: Verdict, ghost metrics: Metrics)
    requires r.Valid() && r.counts.totalFiles == r.Total()
    modifies r`counts, r.cluster, r.cluster.queue, r.cluster.podApi
    // Whatever fails and wherever the controller is stopped, no seeded file is lost before a flush.
    ensures !verdict.RunFailed? ==> r.Valid() && forall f :: Seeds(r.cluster.start, f) ==> Accounted(r.Now(), f)
    // With no failing call no message is ever given a second outcome, over all passes.
    ensures !verdict.RunFailed? && old(r.Calm()) ==> r.Calm() && Conserved(r.cluster.start, r.Now(), r.maxAttempts)
    ensures verdict.RunCompleted? && WaitingRead(metrics) ==>
              forall f :: Seeds(r.cluster.start, f) ==> Succeeded(r.Now(), f) || HasLetter(r.Now().dlq.entries, f)
    ensures verdict.RunCompleted? && old(r.Calm()) ==> WaitingRead(metrics)
    // Attempts are within their bounds, flushed or not.
    ensures Sound(r.cluster.queue, r.maxAttempts)
  {
    hide Inv, Seeded, Legal, Exec, SmoothRun, Accounted, Seeds, Within, Conserved, Loose;
    verdict, metrics := Progressing, Metrics(None, None, None);
    var i := 0;
    while i < |jobs| && verdict.Progressing?
      invariant verdict.Progressing? ==> r.Valid() && r.counts.totalFiles == r.Total()
      invariant verdict.RunCompleted? ==> r.Valid()
      invariant !verdict.RunFailed? && old(r.Calm()) ==> r.Calm()
      invariant verdict.RunCompleted? && WaitingRead(metrics) ==>
        forall f :: Seeds(r.cluster.start, f) ==> Succeeded(r.Now(), f) || HasLetter(r.Now().dlq.entries, f)
      invariant verdict.RunCompleted? && old(r.Calm()) ==> WaitingRead(metrics)
      invariant verdict.RunFailed? ==> Sound(r.cluster.queue, r.maxAttempts)
    {
      verdict, metrics := r.ReconcileBatch(true, jobs[i].first, jobs[i].second, jobs[i].podsGone);
      i := i + 1;
    }
    if !verdict.RunFailed? {
      r.cluster.InvParts();
      InvLimit(r.Now(), r.maxAttempts);
      RunIsWithin(r.Now(), r.maxAttempts);
      forall f | Seeds(r.cluster.start, f) ensures Accounted(r.Now(), f) {
        NoLoss(r.cluster.start, r.cluster.run, r.maxAttempts, f);
      }
      if old(r.Calm()) {
        CalmRunConserves(r.cluster.start, r.cluster.run, r.maxAttempts);
      }
    }
  }

  // The whole run of one instance, with the passes that follow a failed verdict. `reconciler` is null if it never
  // started or had no files, and `files` is the listing its stream was seeded from.
  method RunInstance(queue: Valkey, reliable: bool, listings: seq<Listing>, max: int, jobs: seq<JobState>,
                     later: seq<Pass>)
    returns (reconciler: BatchReconciler?, verdict: Verdict, ghost files: seq<string>, ghost metrics: Metrics)
    requires queue.Valid() && queue.work == EMPTY && queue.dlq == EMPTY && 1 <= max <= 0x7FFF_FFFF
    requires forall i :: 0 <= i < |listings| && listings[i].Files? ==> Distinct(listings[i].files)
    modifies queue
    ensures reconciler == null ==> queue.dlq == EMPTY && verdict.Progressing?
    // The seeded messages come from one listing, and are all of it iff their number is its length.
    ensures reconciler != null ==>
              && reconciler.cluster.queue == queue && reconciler.maxAttempts == max
              && FromListing(listings, files) && SeededFrom(reconciler.cluster.start.work, files)
              && (AllListed(reconciler.cluster.start.work, files) <==> reconciler.Total() == |files|)
    ensures reconciler != null && !verdict.RunFailed? ==>
              forall f :: Seeds(reconciler.cluster.start, f) ==> Accounted(reconciler.Now(), f)
    // So a completed run speaks of the listed files.
    ensures reconciler != null && verdict.RunCompleted? && WaitingRead(metrics) && reconciler.Total() == |files| ==>
              forall i :: 0 <= i < |files| ==>
                Succeeded(reconciler.Now(), files[i]) || HasLetter(queue.dlq.entries, files[i])
    // With no failing call, that is every completed run, and the run conserves what it was given.
    ensures reconciler != null && reliable && old(queue.faultsLeft) == 0 ==> reconciler.Total() == |files|
    ensures reconciler != null && verdict.RunCompleted? && old(queue.faultsLeft) == 0 ==> WaitingRead(metrics)
    ensures reconciler != null && !verdict.RunFailed? && old(queue.faultsLeft) == 0 ==>
              Conserved(reconciler.cluster.start, reconciler.Now(), max) && AttemptsTrue(reconciler.Now(), max)
    // Attempts stay within their bounds to the end, passes after a flush included.
    ensures Sound(queue, max)
  {
    hide Inv, Legal, Exec, Accounted, Within, AttemptsTrue, Loose, SmoothRun, Fresh, StreamOk, StreamOf;
    hide SeededFrom, FromListing, Distinct, AllListed, Conserved, Seeds, Succeeded, HasLetter, DistinctFiles;
    verdict, metrics, reconciler := Progressing, Metrics(None, None, None), null;
    var instance := new Instance(queue, reliable);
    files := instance.Passes(listings);
    SeedIsWithin(queue.work, max);
    if !instance.status.started || instance.status.totalFiles == 0 {
      return;
    }
    StreamOfFacts(files);
    SeedsAreDistinct(queue.work);
    var total := instance.status.totalFiles;
    var podApi := new PodApi();
    var cluster := new Cluster(queue, podApi, max);
    FreshIsCalm(queue.work);
    reconciler := new BatchReconciler(cluster, FileCounts(total, total, 0, 0, 0));
    verdict, metrics := ReconcileUntilVerdict(reconciler, jobs);
    if verdict.RunFailed? {
      ReconcileLater(queue, max, later);
      return;
    }
    if AllListed(cluster.start.work, files) {
      ListedAreSeeds(cluster.start, files);
    }
    if Conserved(cluster.start, reconciler.Now(), max) {
      ConservedAttempts(cluster.start, reconciler.Now(), max);
    }
  }
}
