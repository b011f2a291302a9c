/** When a completed verdict can be trusted: the counts were 0, read or not, and the Job was then found complete. */
module CompletedVerdict {
  import opened Decimal
  import opened Streams
  import opened Pods
  import opened Protocol
  import opened Accounting
  import opened FlushProperties
  import opened Clusters
  import opened Reconciler
  import opened RunBlocks
  import opened Scenarios

  // The metrics a status is made of are read one after another: the lag after i steps of the run, the pending
  // count after j and the dead letters after k. From the first read to the end of the run only pods move.
  ghost predicate ReadAlong(start: World, run: seq<Label>, i: nat, j: nat, k: nat, max: int) {
    && Seeded(start, max) && Legal(start, run, max) && i <= j <= k <= |run|
    && forall n :: i <= n < |run| ==> OfCluster(run[n])
  }

  function MetricsOf(start: World, run: seq<Label>, i: nat, j: nat, k: nat, lagOk: bool, pendingOk: bool,
                     lettersOk: bool): Metrics
    requires i <= |run| && j <= |run| && k <= |run|
  {
    Metrics(if lagOk then Some(Lag(Exec(start, run[..i]).work)) else None,
            if pendingOk then Some(|Exec(start, run[..j]).work.pel|) else None,
            if lettersOk then Some(|Exec(start, run[..k]).dlq.entries|) else None)
  }

  // At the end of the run the Job is found complete, and the status made of these reads makes it a completed verdict.
  ghost predicate SaysCompleted(start: World, run: seq<Label>, i: nat, j: nat, k: nat, lagOk: bool, pendingOk: bool,
                                lettersOk: bool)
    requires i <= |run| && j <= |run| && k <= |run|
  {
    var counts := Reported(|start.work.entries|, MetricsOf(start, run, i, j, k, lagOk, pendingOk, lettersOk));
    JobMayBeComplete(start, Exec(start, run)) && CheckCompletion(counts, true, Job(true, false)) == Some(true)
  }

  // Every seeded file succeeded or is dead-lettered.
  ghost predicate AllProcessed(start: World, end: World) {
    forall f :: Seeds(start, f) ==> Succeeded(end, f) || HasLetter(end.dlq.entries, f)
  }

  ghost predicate MeansDrained(lagOk: bool, pendingOk: bool, lettersOk: bool, max: int) {
    forall start, run, i: nat, j: nat, k: nat :: ReadAlong(start, run, i, j, k, max) ==>
      SaysCompleted(start, run, i, j, k, lagOk, pendingOk, lettersOk) ==> Drained(Exec(start, run))
  }

  ghost predicate MeansProcessed(lagOk: bool, pendingOk: bool, lettersOk: bool, max: int) {
    forall start, run, i: nat, j: nat, k: nat :: ReadAlong(start, run, i, j, k, max) ==>
      SaysCompleted(start, run, i, j, k, lagOk, pendingOk, lettersOk) ==> AllProcessed(start, Exec(start, run))
  }

  // What pods do between two points of a run drifts.
  lemma {:induction false} PodsDrift(start: World, run: seq<Label>, i: nat, j: nat, max: int)
    requires Seeded(start, max) && Legal(start, run, max) && i <= j <= |run|
    requires forall n :: i <= n < |run| ==> OfCluster(run[n])
    ensures Drift(Exec(start, run[..i]), Exec(start, run[..j]))
  {
    hide Seeded, Legal, Exec, Drift, Apply, Enabled, Inv;
    if i == j {
      DriftReflexive(Exec(start, run[..i]));
    } else {
      PodsDrift(start, run, i, j - 1, max);
      RunStep(start, run, max, j - 1);
      SeededInv(start, max);
      RunInv(start, run[..j - 1], max);
      ClusterStepDrifts(Exec(start, run[..j - 1]), run[j - 1], max);
      DriftTransitive(Exec(start, run[..i]), Exec(start, run[..j - 1]), Exec(start, run[..j]));
    }
  }

  // The states of the reads and the last one, with what lies between them.
  lemma ReadStates(start: World, run: seq<Label>, i: nat, j: nat, k: nat, max: int)
    requires ReadAlong(start, run, i, j, k, max)
    ensures var (t1, t2, t3) := (Exec(start, run[..i]), Exec(start, run[..j]), Exec(start, run[..k]));
      var end := Exec(start, run);
      && Inv(t1, max) && Inv(t2, max) && Inv(t3, max) && Inv(end, max)
      && Drift(t1, t2) && Drift(t2, end) && Drift(t3, end)
  {
    hide Seeded, Legal, Exec, Drift, Inv;
    SeededInv(start, max);
    LegalPrefix(start, run, max, i);
    LegalPrefix(start, run, max, j);
    LegalPrefix(start, run, max, k);
    RunInv(start, run[..i], max);
    RunInv(start, run[..j], max);
    RunInv(start, run[..k], max);
    RunInv(start, run, max);
    PodsDrift(start, run, i, j, max);
    PodsDrift(start, run, j, |run|, max);
    PodsDrift(start, run, k, |run|, max);
    assert run[..|run|] == run;
  }

  // Every pod that has claimed or finished is one that some message was delivered to.
  ghost predicate ClaimsRecorded(w: World) {
    && (forall n :: n in w.past.finished ==> n in w.past.ran.Values)
    && (forall n :: n in w.pods && w.pods[n].claimed ==> n in w.past.ran.Values)
  }

  lemma ClaimsStep(w: World, l: Label, max: int)
    requires StreamOk(w.work) && OwnersOk(w) && ClaimsRecorded(w) && Enabled(w, l, max)
    ensures ClaimsRecorded(Apply(w, l))
  {
    if l.ClaimNext? {
      var (id, ran) := (w.work.delivered + 1, Apply(w, l).past.ran);
      assert ran[id] == l.name && id !in w.past.ran;
      forall n | n in w.past.ran.Values ensures n in ran.Values {
        var k :| k in w.past.ran && w.past.ran[k] == n;
        assert ran[k] == n;
      }
    }
  }

  lemma {:induction false} ClaimsRun(w: World, run: seq<Label>, max: int)
    requires Seeded(w, max) && Legal(w, run, max)
    ensures ClaimsRecorded(Exec(w, run))
    ensures max == 1 ==> Exec(w, run).work.lastId == w.work.lastId
  {
    if run != [] {
      hide ClaimsRecorded;
      var before := run[..|run| - 1];
      ClaimsRun(w, before, max);
      SeededInv(w, max);
      RunInv(w, before, max);
      ClaimsStep(Exec(w, before), run[|run| - 1], max);
    }
  }

  lemma {:induction false} ValuesAreFewer(m: map<nat, string>)
    ensures |m.Values| <= |m|
  {
    if m == map[] {
      assert m.Values == {};
    } else {
      var k :| k in m;
      var rest := m - {k};
      ValuesAreFewer(rest);
      assert m.Keys == rest.Keys + {k};
      assert |m| == |m.Keys| && |rest| == |rest.Keys|;
      forall n | n in m.Values ensures n in rest.Values + {m[k]} {
        var i :| i in m && m[i] == n;
        assert i != k ==> i in rest && rest[i] == n;
      }
      Subset(m.Values, rest.Values + {m[k]});
    }
  }

  lemma {:induction false} UpTo(ids: set<nat>, n: nat)
    requires forall id :: id in ids <==> 1 <= id <= n
    ensures |ids| == n
  {
    if n == 0 {
      assert ids == {};
    } else {
      UpTo(ids - {n}, n - 1);
    }
  }

  /** At most as many pods have finished as messages were delivered, so with one attempt per file a complete
      Job leaves nothing undelivered. */
  lemma FinishedWereDelivered(start: World, run: seq<Label>, max: int)
    requires Seeded(start, max) && Legal(start, run, max)
    ensures var end := Exec(start, run);
      && |end.past.finished| <= end.work.delivered
      && (max == 1 && JobMayBeComplete(start, end) ==> Undelivered(end.work) == {})
  {
    hide Legal, Exec;
    var end := Exec(start, run);
    ClaimsRun(start, run, max);
    SeededInv(start, max);
    RunInv(start, run, max);
    UpTo(end.past.ran.Keys, end.work.delivered);
    assert |end.past.ran| == |end.past.ran.Keys|;
    ValuesAreFewer(end.past.ran);
    Subset(end.past.finished, end.past.ran.Values);
    UpTo(start.work.entries.Keys, start.work.lastId);
    assert |start.work.entries| == |start.work.entries.Keys|;
  }

  /** A completed verdict, on metrics read one after another while pods move and a Job looked up last, means a
      drained queue if and only if the lag and the pending count behind it were both read; and only then does it
      mean that every seeded file succeeded or is dead-lettered. */
  lemma CompletionIsSoundIff(lagOk: bool, pendingOk: bool, lettersOk: bool, max: int)
    requires 1 <= max <= 0x7FFF_FFFF
    ensures MeansDrained(lagOk, pendingOk, lettersOk, max) <==> lagOk && pendingOk
    ensures MeansProcessed(lagOk, pendingOk, lettersOk, max) <==> lagOk && pendingOk
  {
    hide Seeded, Legal, Exec, SaysCompleted, Drained, AllProcessed;
    if lagOk && pendingOk {
      forall start, run, i: nat, j: nat, k: nat | ReadAlong(start, run, i, j, k, max)
        ensures SaysCompleted(start, run, i, j, k, true, true, lettersOk) ==>
                  Drained(Exec(start, run)) && AllProcessed(start, Exec(start, run))
      {
        CompletedIsDrained(start, run, i, j, k, lettersOk, max);
      }
    } else {
      UnreadMisleads("a", "p", lagOk, pendingOk, lettersOk, max);
    }
  }

  lemma CompletedIsDrained(start: World, run: seq<Label>, i: nat, j: nat, k: nat, lettersOk: bool, max: int)
    requires ReadAlong(start, run, i, j, k, max)
    ensures SaysCompleted(start, run, i, j, k, true, true, lettersOk) ==>
              Drained(Exec(start, run)) && AllProcessed(start, Exec(start, run))
  {
    hide Seeded, Legal, Exec, Inv, Drift, Seeds, Succeeded, HasLetter;
    ReadStates(start, run, i, j, k, max);
    ReadsAddUp(Exec(start, run[..i]), Exec(start, run[..j]), Exec(start, run), max);
    if Drained(Exec(start, run)) {
      CompletedRun(start, run, max);
    }
  }

  // One file. With the lag unread, the pending count is read before the pod claims; with the pending count
  // unread, everything is read once the pod has succeeded. In the end its message is pending, and not yet done.
  lemma UnreadMisleads(file: string, p: string, lagOk: bool, pendingOk: bool, lettersOk: bool, max: int)
    requires 1 <= max <= 0x7FFF_FFFF && p != RECLAIMER && !(lagOk && pendingOk)
    ensures var (w, run, i) := (OneFile(file), PodRuns(p, PodSucceeded), if lagOk then 3 else 0);
      && ReadAlong(w, run, i, i, i, max) && SaysCompleted(w, run, i, i, i, lagOk, pendingOk, lettersOk)
      && !Drained(Exec(w, run)) && !AllProcessed(w, Exec(w, run))
  {
    hide Exec, Legal;
    var (w, run) := (OneFile(file), PodRuns(p, PodSucceeded));
    AfterFirstSuccess(file, p, max);
    OneEntry(file);
    EmptyRun(w, max);
    assert run[..0] == [] && run[..3] == run;
    assert Undelivered(Exec(w, run).work) == {};
    assert Seeds(w, file) && !Succeeded(Exec(w, run), file) by {
      assert w.work.entries[1].file == file;
    }
  }

  lemma OneEntry(file: string)
    ensures |OneFile(file).work.entries| == 1
  {
    assert OneFile(file).work.entries.Keys == {1};
    assert |OneFile(file).work.entries| == |OneFile(file).work.entries.Keys|;
  }

  // ---------------------------------------------------------------- a complete Job without one of the files

  // The work of the first file is repeated; the second file fails once; the repetition succeeds.
  function RepeatAndRetry(p: string, q: string): seq<Label> {
    PodRuns(p, PodSucceeded) + TakeTwice(1) + WriteOff(1) + PodRuns(q, PodFailed) + WriteOff(2)
  }

  function RepeatInsteadOfRetry(p: string, q: string, r: string): seq<Label> {
    RepeatAndRetry(p, q) + PodRuns(r, PodSucceeded) + [AckDone(3)]
  }

  lemma AfterFirstOfTwo(a: string, b: string, p: string)
    requires p != RECLAIMER
    ensures var (w, run) := (TwoFiles(a, b), PodRuns(p, PodSucceeded));
      && Legal(w, run, 3) && SmoothRun(w, run)
      && Exec(w, run).work == Stream(map[1 := Body(a, Itoa(0)), 2 := Body(b, Itoa(0))], 2, 1, map[1 := p])
      && Exec(w, run).dlq == EMPTY && Exec(w, run).pods == map[p := SUCCEEDED] && !AliveIn(Exec(w, run), p)
      && Exec(w, run).past.items == map[1 := Item(a, 0), 2 := Item(b, 0)]
      && Exec(w, run).past.names == {p} && Exec(w, run).past.finished == {p}
      && Exec(w, run).past.covered == {} && Exec(w, run).past.done == {}
  {
    hide Legal, SmoothRun, Exec;
    var w := TwoFiles(a, b);
    EmptyRun(w, 3);
    PodBlock(w, [], p, PodSucceeded, 3);
    assert [] + PodRuns(p, PodSucceeded) == PodRuns(p, PodSucceeded);
  }

  lemma AfterRepeatedFirst(a: string, b: string, p: string)
    requires p != RECLAIMER
    ensures var (w, run) := (TwoFiles(a, b), PodRuns(p, PodSucceeded) + TakeTwice(1) + WriteOff(1));
      && Seeded(w, 3) && Legal(w, run, 3) && SmoothRun(w, run)
      && Exec(w, run).work
           == Stream(map[1 := Body(a, Itoa(0)), 2 := Body(b, Itoa(0)), 3 := Body(a, Itoa(1))], 3, 1, map[])
      && Exec(w, run).dlq == EMPTY && Exec(w, run).pods == map[p := SUCCEEDED]
      && Exec(w, run).past.items == map[1 := Item(a, 0), 2 := Item(b, 0), 3 := Item(a, 1)]
      && Exec(w, run).past.names == {p} && Exec(w, run).past.finished == {p}
      && Exec(w, run).past.covered == {1} && Exec(w, run).past.done == {}
  {
    hide Legal, SmoothRun, Exec, PodRuns, TakeTwice, WriteOff;
    AfterFirstOfTwo(a, b, p);
    var (w, run) := (TwoFiles(a, b), PodRuns(p, PodSucceeded));
    TakeBlock(w, run, 1, 3);
    run := run + TakeTwice(1);
    WriteOffBlock(w, run, 1, 3);
  }

  /** As many pods have succeeded as files were seeded and too few have failed to fail the Job, so it is
      complete; yet one of the files never succeeded, has no letter, and waits for a pod that the Job will not
      start. With the lag unread the verdict is completed all the same. */
  lemma CompleteWithoutFile(a: string, b: string, p: string, q: string, r: string)
    requires a != b && RECLAIMER !in {p, q, r} && p != q && p != r && q != r
    ensures var (w, run) := (TwoFiles(a, b), RepeatInsteadOfRetry(p, q, r));
      && Seeded(w, 3) && Legal(w, run, 3) && SmoothRun(w, run)
      && JobMayBeComplete(w, Exec(w, run)) && |FailedPods(Exec(w, run))| <= BACKOFF_LIMIT
      && Seeds(w, b) && !Succeeded(Exec(w, run), b) && !HasLetter(Exec(w, run).dlq.entries, b)
      && 4 in Undelivered(Exec(w, run).work) && Exec(w, run).work.entries[4] == Body(b, Itoa(1))
      && SaysCompleted(w, run, |run|, |run|, |run|, false, true, true)
  {
    hide Legal, SmoothRun, Exec;
    AfterRepeatInstead(a, b, p, q, r);
    var (w, end) := (TwoFiles(a, b), Exec(TwoFiles(a, b), RepeatInsteadOfRetry(p, q, r)));
    assert w.work.entries.Keys == {1, 2};
    assert |w.work.entries| == |w.work.entries.Keys|;
    assert w.work.entries[2].file == b;
    assert FailedPods(end) == {q};
    assert |end.past.finished| == 2;
    assert |end.work.pel| == 0;
    assert RepeatInsteadOfRetry(p, q, r)[..|RepeatInsteadOfRetry(p, q, r)|] == RepeatInsteadOfRetry(p, q, r);
  }

  lemma AfterSecondFails(a: string, b: string, p: string, q: string)
    requires RECLAIMER !in {p, q} && p != q
    ensures var (w, run) := (TwoFiles(a, b), RepeatAndRetry(p, q));
      && Seeded(w, 3) && Legal(w, run, 3) && SmoothRun(w, run)
      && Exec(w, run).work == Stream(map[1 := Body(a, Itoa(0)), 2 := Body(b, Itoa(0)), 3 := Body(a, Itoa(1)),
                                         4 := Body(b, Itoa(1))], 4, 2, map[])
      && Exec(w, run).dlq == EMPTY && Exec(w, run).pods == map[p := SUCCEEDED, q := FAILED]
      && Exec(w, run).past.items == map[1 := Item(a, 0), 2 := Item(b, 0), 3 := Item(a, 1), 4 := Item(b, 1)]
      && Exec(w, run).past.names == {p, q} && Exec(w, run).past.finished == {p}
      && Exec(w, run).past.covered == {1, 2} && Exec(w, run).past.done == {}
  {
    hide Legal, SmoothRun, Exec, PodRuns, TakeTwice, WriteOff;
    AfterRepeatedFirst(a, b, p);
    var (w, run) := (TwoFiles(a, b), PodRuns(p, PodSucceeded) + TakeTwice(1) + WriteOff(1));
    PodBlock(w, run, q, PodFailed, 3);
    run := run + PodRuns(q, PodFailed);
    WriteOffBlock(w, run, 2, 3);
  }

  lemma AfterRepeatInstead(a: string, b: string, p: string, q: string, r: string)
    requires RECLAIMER !in {p, q, r} && p != q && p != r && q != r
    ensures var (w, run) := (TwoFiles(a, b), RepeatInsteadOfRetry(p, q, r));
      && Seeded(w, 3) && Legal(w, run, 3) && SmoothRun(w, run)
      && Exec(w, run).work.entries == map[1 := Body(a, Itoa(0)), 2 := Body(b, Itoa(0)), 3 := Body(a, Itoa(1)),
                                          4 := Body(b, Itoa(1))]
      && Exec(w, run).work.delivered == 3 && Exec(w, run).work.pel == map[] && Exec(w, run).dlq == EMPTY
      && Exec(w, run).pods == map[p := SUCCEEDED, q := FAILED, r := SUCCEEDED]
      && Exec(w, run).past.items == map[1 := Item(a, 0), 2 := Item(b, 0), 3 := Item(a, 1), 4 := Item(b, 1)]
      && Exec(w, run).past.finished == {p, r} && Exec(w, run).past.done == {3}
  {
    hide Legal, SmoothRun, Exec, PodRuns, RepeatAndRetry;
    AfterSecondFails(a, b, p, q);
    var (w, run) := (TwoFiles(a, b), RepeatAndRetry(p, q));
    PodBlock(w, run, r, PodSucceeded, 3);
    run := run + PodRuns(r, PodSucceeded);
    RunAppend(w, run, AckDone(3), 3);
  }
}
