/** Runs that show where the controller falls short of what it is for, in states that the Job allows. */
module Scenarios {
  import opened Decimal
  import opened Streams
  import opened Pods
  import opened Protocol
  import opened Accounting
  import opened Flush
  import opened FlushProperties
  import opened Reconciler
  import opened RunBlocks

  // ---------------------------------------------------------------- a finished file that is flushed all the same

  // Both files fail once; the retry of the first one succeeds, that of the second one fails.
  function TwoRetries(p1: string, p2: string): seq<Label> {
    PodRuns(p1, PodFailed) + WriteOff(1) + PodRuns(p2, PodFailed) + WriteOff(2)
  }

  function OneSuccess(p1: string, p2: string, q: string): seq<Label> {
    TwoRetries(p1, p2) + PodRuns(q, PodSucceeded) + [AckDone(3)]
  }

  function ThreeFailures(p1: string, p2: string, q: string, r: string): seq<Label> {
    OneSuccess(p1, p2, q) + PodRuns(r, PodFailed) + WriteOff(4)
  }

  lemma AfterOneRetry(a: string, b: string, p: string)
    requires p != RECLAIMER
    ensures var (w, run) := (TwoFiles(a, b), PodRuns(p, PodFailed) + WriteOff(1));
      && Legal(w, run, 3) && SmoothRun(w, run)
      && Exec(w, run).work
           == Stream(map[1 := Body(a, Itoa(0)), 2 := Body(b, Itoa(0)), 3 := Body(a, Itoa(1))], 3, 1, map[])
      && Exec(w, run).pods == map[p := FAILED]
      && Exec(w, run).past.items == map[1 := Item(a, 0), 2 := Item(b, 0), 3 := Item(a, 1)]
      && Exec(w, run).past.names == {p} && Exec(w, run).past.finished == {}
      && Exec(w, run).past.covered == {1} && Exec(w, run).past.done == {}
  {
    hide Legal, SmoothRun, Exec;
    var (w, run) := (TwoFiles(a, b), []);
    EmptyRun(w, 3);
    PodBlock(w, run, p, PodFailed, 3);
    run := PodRuns(p, PodFailed);
    assert [] + run == run;
    WriteOffBlock(w, run, 1, 3);
  }

  lemma AfterTwoRetries(a: string, b: string, p1: string, p2: string)
    requires RECLAIMER !in {p1, p2} && p1 != p2
    ensures var (w, run) := (TwoFiles(a, b), TwoRetries(p1, p2));
      && Seeded(w, 3) && Legal(w, run, 3) && SmoothRun(w, run)
      && Exec(w, run).work == Stream(map[1 := Body(a, Itoa(0)), 2 := Body(b, Itoa(0)), 3 := Body(a, Itoa(1)),
                                         4 := Body(b, Itoa(1))], 4, 2, map[])
      && Exec(w, run).pods == map[p1 := FAILED, p2 := FAILED]
      && Exec(w, run).past.items == map[1 := Item(a, 0), 2 := Item(b, 0), 3 := Item(a, 1), 4 := Item(b, 1)]
      && Exec(w, run).past.names == {p1, p2} && Exec(w, run).past.finished == {}
      && Exec(w, run).past.covered == {1, 2} && Exec(w, run).past.done == {}
  {
    hide Legal, SmoothRun, Exec, PodRuns;
    AfterOneRetry(a, b, p1);
    var (w, run) := (TwoFiles(a, b), PodRuns(p1, PodFailed) + WriteOff(1));
    PodBlock(w, run, p2, PodFailed, 3);
    run := run + PodRuns(p2, PodFailed);
    WriteOffBlock(w, run, 2, 3);
  }

  lemma AfterOneSuccess(a: string, b: string, p1: string, p2: string, q: string)
    requires RECLAIMER !in {p1, p2, q} && p1 != p2 && p1 != q && p2 != q
    ensures var (w, run) := (TwoFiles(a, b), OneSuccess(p1, p2, q));
      && Seeded(w, 3) && Legal(w, run, 3) && SmoothRun(w, run)
      && Exec(w, run).work == Stream(map[1 := Body(a, Itoa(0)), 2 := Body(b, Itoa(0)), 3 := Body(a, Itoa(1)),
                                         4 := Body(b, Itoa(1))], 4, 3, map[])
      && Exec(w, run).pods == map[p1 := FAILED, p2 := FAILED, q := SUCCEEDED]
      && Exec(w, run).past.items == map[1 := Item(a, 0), 2 := Item(b, 0), 3 := Item(a, 1), 4 := Item(b, 1)]
      && Exec(w, run).past.names == {p1, p2, q} && Exec(w, run).past.finished == {q}
      && Exec(w, run).past.covered == {1, 2} && Exec(w, run).past.done == {3}
  {
    hide Legal, SmoothRun, Exec, TwoRetries, PodRuns;
    AfterTwoRetries(a, b, p1, p2);
    var (w, run) := (TwoFiles(a, b), TwoRetries(p1, p2));
    PodBlock(w, run, q, PodSucceeded, 3);
    run := run + PodRuns(q, PodSucceeded);
    RunAppend(w, run, AckDone(3), 3);
  }

  lemma AfterThreeFailures(a: string, b: string, p1: string, p2: string, q: string, r: string)
    requires RECLAIMER !in {p1, p2, q, r} && |{p1, p2, q, r}| == 4
    ensures var (w, run) := (TwoFiles(a, b), ThreeFailures(p1, p2, q, r));
      && Seeded(w, 3) && Legal(w, run, 3) && SmoothRun(w, run)
      && 3 in Exec(w, run).work.entries && 3 in Exec(w, run).past.items && Exec(w, run).past.items[3] == Item(a, 1)
      && Exec(w, run).work.pel == map[]
      && Exec(w, run).past.finished == {q} && Exec(w, run).past.done == {3}
      && Exec(w, run).pods == map[p1 := FAILED, p2 := FAILED, q := SUCCEEDED, r := FAILED]
  {
    hide Legal, SmoothRun, Exec, OneSuccess, PodRuns;
    FourNames(p1, p2, q, r);
    AfterOneSuccess(a, b, p1, p2, q);
    var (w, run) := (TwoFiles(a, b), OneSuccess(p1, p2, q));
    PodBlock(w, run, r, PodFailed, 3);
    run := run + PodRuns(r, PodFailed);
    WriteOffBlock(w, run, 4, 3);
  }

  lemma FourNames(p1: string, p2: string, q: string, r: string)
    requires |{p1, p2, q, r}| == 4
    ensures p1 != p2 && p1 != q && p1 != r && p2 != q && p2 != r && q != r
  {
    assert p1 == p2 ==> {p1, p2, q, r} == {p2, q, r};
    assert p1 == q ==> {p1, p2, q, r} == {p2, q, r};
    assert p1 == r ==> {p1, p2, q, r} == {p2, q, r};
    assert p2 == q ==> {p1, p2, q, r} == {p1, q, r};
    assert p2 == r ==> {p1, p2, q, r} == {p1, q, r};
    assert q == r ==> {p1, p2, q, r} == {p1, p2, r};
  }

  /** The Job fails on its third failed pod while fewer pods have succeeded than files were seeded, and the
      flush that follows dead-letters a file that succeeded on its second attempt: a success is acknowledged
      without being deleted. */
  lemma SucceededFileIsFlushed(a: string, b: string, p1: string, p2: string, q: string, r: string,
          after: map<nat, Body>, final: map<string, int>)
    requires a != "" && RECLAIMER !in {p1, p2, q, r} && |{p1, p2, q, r}| == 4
    requires var end := Exec(TwoFiles(a, b), ThreeFailures(p1, p2, q, r));
      Flushed(end.work.entries, end.dlq, after, final, 3)
    ensures var (w, run) := (TwoFiles(a, b), ThreeFailures(p1, p2, q, r));
      && Seeded(w, 3) && Legal(w, run, 3) && SmoothRun(w, run) && JobMayHaveFailed(w, Exec(w, run))
      && 3 in Done(Exec(w, run), Only(a)) && Exec(w, run).work.pel == map[]
      && HasLetter(after, a)
  {
    hide Exec, Legal, SmoothRun, ThreeFailures, Flushed, HasLetter;
    AfterThreeFailures(a, b, p1, p2, q, r);
    FourNames(p1, p2, q, r);
    var (w, run) := (TwoFiles(a, b), ThreeFailures(p1, p2, q, r));
    FlushOfRun(w, run, 3, after, final, a);
    assert Name(a) == a;
    assert FailedPods(Exec(w, run)) == {p1, p2, r};
    assert w.work.entries.Keys == {1, 2};
    assert |w.work.entries| == |w.work.entries.Keys|;
  }

  // ---------------------------------------------------------------- finished work that is repeated

  // The only pod succeeds; the next pass finds its message under the reclaimer's own name and writes it off.
  function ClaimTwiceAndWriteOff(p: string, max: int): seq<Label> {
    PodRuns(p, PodSucceeded) + TakeTwice(1) + [if 1 < max then Retry(1) else DeadLetter(1)] + [AckCovered(1)]
  }

  lemma AfterFirstSuccess(file: string, p: string, max: int)
    requires p != RECLAIMER
    ensures var (w, run) := (OneFile(file), PodRuns(p, PodSucceeded));
      && Legal(w, run, max) && SmoothRun(w, run)
      && Exec(w, run).work == Stream(map[1 := Body(file, Itoa(0))], 1, 1, map[1 := p])
      && Exec(w, run).dlq == EMPTY && Exec(w, run).past.items == map[1 := Item(file, 0)]
      && Exec(w, run).pods == map[p := SUCCEEDED]
      && Exec(w, run).past.ran == map[1 := p] && Exec(w, run).past.finished == {p}
      && Exec(w, run).past.covered == {} && Exec(w, run).past.done == {}
  {
    hide Exec, Legal, SmoothRun;
    var w := OneFile(file);
    EmptyRun(w, max);
    PodBlock(w, [], p, PodSucceeded, max);
    assert [] + PodRuns(p, PodSucceeded) == PodRuns(p, PodSucceeded);
  }

  lemma AfterRepeat(file: string, p: string, max: int)
    requires p != RECLAIMER && 1 <= max <= 0x7FFF_FFFF
    ensures var (w, run) := (OneFile(file), ClaimTwiceAndWriteOff(p, max));
      && Legal(w, run, max) && SmoothRun(w, run)
      && Exec(w, run).work.pel == map[] && Exec(w, run).past.finished == {p} && Exec(w, run).past.done == {}
      && Exec(w, run).past.ran == map[1 := p] && Exec(w, run).past.covered == {1}
      && (if max == 1 then Exec(w, run).dlq.entries == map[1 := Body(file, Itoa(1))]
          else Exec(w, run).work.entries == map[1 := Body(file, Itoa(0)), 2 := Body(file, Itoa(1))]
               && Exec(w, run).work.delivered == 1)
  {
    hide Exec, Legal, SmoothRun, PodRuns, TakeTwice;
    AfterFirstSuccess(file, p, max);
    var (w, run) := (OneFile(file), PodRuns(p, PodSucceeded));
    TakeBlock(w, run, 1, max);
    run := run + TakeTwice(1);
    var write := if 1 < max then Retry(1) else DeadLetter(1);
    RunAppend(w, run, write, max);
    run := run + [write];
    RunAppend(w, run, AckCovered(1), max);
  }

  /** The work of a pod that succeeded is written off: enqueued again, or dead-lettered if it was the last
      attempt, and never acknowledged as successful. No message gets a second outcome, so the count of the
      file does not tell. */
  lemma FinishedWorkIsRepeated(file: string, p: string, max: int)
    requires p != RECLAIMER && 1 <= max <= 0x7FFF_FFFF
    ensures var (w, run) := (OneFile(file), ClaimTwiceAndWriteOff(p, max));
      && Seeded(w, max) && Legal(w, run, max) && SmoothRun(w, run)
      && Repeated(Exec(w, run), 1) && Exec(w, run).past.done == {} && Exec(w, run).work.pel == map[]
      && Count(Exec(w, run), All()) == Count(w, All())
      && (if max == 1 then HasLetter(Exec(w, run).dlq.entries, file)
          else Undelivered(Exec(w, run).work) == {2} && Exec(w, run).work.entries[2] == Body(file, Itoa(1)))
  {
    hide Exec, Legal, SmoothRun, Count, ClaimTwiceAndWriteOff;
    AfterRepeat(file, p, max);
    var (w, run) := (OneFile(file), ClaimTwiceAndWriteOff(p, max));
    assert max == 1 ==> 1 in Exec(w, run).dlq.entries;
    SeededInv(w, max);
    CountedOnceIff(w, run, max);
  }

  // ---------------------------------------------------------------- a second outcome

  // The retry takes effect, the acknowledgement after it does not, and the next pass writes another retry.
  function RetriedTwice(p: string): seq<Label> {
    PodRuns(p, PodFailed) + [Retry(1)] + [Retry(1)]
  }

  const STUCK := Pod(PodPending, [Waiting("ErrImagePull")], [], true)
  const UNSTUCK := Pod(PodSucceeded, [Terminated(0)], [], true)

  // A pod that cannot start is written off without its acknowledgement, recovers, and is acknowledged.
  function RetriedThenDone(p: string): seq<Label> {
    StuckIsRetried(p) + [PodMoves(p, UNSTUCK)] + [AckDone(1)]
  }

  /** Both ways to a second outcome are legal runs that are not smooth, and each counts the file once more. */
  lemma SecondOutcomes(file: string, p: string)
    requires p != RECLAIMER
    ensures var (w, run) := (OneFile(file), RetriedTwice(p));
      && Seeded(w, 3) && Legal(w, run, 3) && !SmoothRun(w, run) && Count(Exec(w, run), All()) == Count(w, All()) + 1
    ensures var (w, run) := (OneFile(file), RetriedThenDone(p));
      && Legal(w, run, 3) && !SmoothRun(w, run) && Count(Exec(w, run), All()) == Count(w, All()) + 1
      && 1 in Exec(w, run).past.done && 1 in Exec(w, run).past.covered
  {
    SecondRetry(file, p);
    RetryThenSuccess(file, p);
  }

  lemma SecondRetry(file: string, p: string)
    requires p != RECLAIMER
    ensures var (w, run) := (OneFile(file), RetriedTwice(p));
      && Seeded(w, 3) && Legal(w, run, 3) && !SmoothRun(w, run) && Count(Exec(w, run), All()) == Count(w, All()) + 1
  {
    hide Exec, Legal, SmoothRun, Count, PodRuns;
    var (w, run) := (OneFile(file), []);
    EmptyRun(w, 3);
    PodBlock(w, run, p, PodFailed, 3);
    run := PodRuns(p, PodFailed);
    assert [] + run == run;
    RunAppend(w, run, Retry(1), 3);
    run := run + [Retry(1)];
    RunAppend(w, run, Retry(1), 3);
    LastIsSecond(w, run, Retry(1), 3);
  }

  // A smooth run and one step that is not smooth.
  lemma LastIsSecond(w: World, run: seq<Label>, l: Label, max: int)
    requires Seeded(w, max) && Legal(w, run, max) && SmoothRun(w, run)
    requires Enabled(Exec(w, run), l, max) && !Smooth(Exec(w, run), l)
    ensures Count(Apply(Exec(w, run), l), All()) == Count(w, All()) + 1
  {
    hide Exec, Legal, SmoothRun, Count, Seeded, Enabled, Smooth, Apply;
    SeededInv(w, max);
    RunInv(w, run, max);
    CountRun(w, run, max, All());
    UnsmoothStep(Exec(w, run), l, max);
  }

  function StuckIsRetried(p: string): seq<Label> {
    [Spawn(p)] + [ClaimNext(p)] + [PodMoves(p, STUCK)] + [Retry(1)]
  }

  lemma AfterStuck(file: string, p: string)
    requires p != RECLAIMER
    ensures var (w, run) := (OneFile(file), StuckIsRetried(p));
      && Legal(w, run, 3) && SmoothRun(w, run)
      && p in Exec(w, run).pods && Exec(w, run).pods[p] == STUCK
      && Exec(w, run).work.pel == map[1 := p] && Exec(w, run).past.ran == map[1 := p]
      && Exec(w, run).past.covered == {1}
  {
    hide Exec, Legal, SmoothRun;
    var (w, run) := (OneFile(file), []);
    EmptyRun(w, 3);
    RunAppend(w, run, Spawn(p), 3);
    run := run + [Spawn(p)];
    assert run == [Spawn(p)];
    RunAppend(w, run, ClaimNext(p), 3);
    run := run + [ClaimNext(p)];
    RunAppend(w, run, PodMoves(p, STUCK), 3);
    run := run + [PodMoves(p, STUCK)];
    assert ShowsFailure(STUCK) by {
      assert STUCK.containers[0].Waiting?;
    }
    RunAppend(w, run, Retry(1), 3);
  }

  lemma RetryThenSuccess(file: string, p: string)
    requires p != RECLAIMER
    ensures var (w, run) := (OneFile(file), RetriedThenDone(p));
      && Legal(w, run, 3) && !SmoothRun(w, run) && Count(Exec(w, run), All()) == Count(w, All()) + 1
      && 1 in Exec(w, run).past.done && 1 in Exec(w, run).past.covered
  {
    hide Exec, Legal, SmoothRun, Count, StuckIsRetried;
    AfterStuck(file, p);
    var (w, run) := (OneFile(file), StuckIsRetried(p));
    RunAppend(w, run, PodMoves(p, UNSTUCK), 3);
    run := run + [PodMoves(p, UNSTUCK)];
    RunAppend(w, run, AckDone(1), 3);
    LastIsSecond(w, run, AckDone(1), 3);
  }
}
