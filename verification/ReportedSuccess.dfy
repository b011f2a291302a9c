/** When reported success can be trusted: the metrics behind it are read one after another, and any may fail. */
module ReportedSuccess {
  import opened Decimal
  import opened Streams
  import opened Pods
  import opened Protocol
  import opened Accounting
  import opened Clusters
  import opened Reconciler
  import opened RunBlocks
  import opened Scenarios
  import opened CompletedVerdict

  // What the status made of these reads says, against the successes at the end of the run.
  ghost predicate OverReports(start: World, run: seq<Label>, i: nat, j: nat, k: nat, lagOk: bool, pendingOk: bool,
                              lettersOk: bool)
    requires i <= |run| && j <= |run| && k <= |run|
  {
    Reported(|start.work.entries|, MetricsOf(start, run, i, j, k, lagOk, pendingOk, lettersOk)).succeeded
      > |Exec(start, run).past.done|
  }

  ghost predicate NeverOverReports(lagOk: bool, pendingOk: bool, lettersOk: bool, max: int) {
    forall start, run, i: nat, j: nat, k: nat :: ReadAlong(start, run, i, j, k, max) ==>
      !OverReports(start, run, i, j, k, lagOk, pendingOk, lettersOk)
  }

  /** Over all reachable states, with pods moving between the reads, success is never over-reported if and only if
      the lag, the pending count and the length of the dead letter queue were all read. */
  lemma SuccessIsBoundedIff(lagOk: bool, pendingOk: bool, lettersOk: bool, max: int)
    requires 1 <= max <= 0x7FFF_FFFF
    ensures NeverOverReports(lagOk, pendingOk, lettersOk, max) <==> lagOk && pendingOk && lettersOk
  {
    hide Seeded, Legal, Exec, OverReports;
    if lagOk && pendingOk && lettersOk {
      forall start, run, i: nat, j: nat, k: nat | ReadAlong(start, run, i, j, k, max)
        ensures !OverReports(start, run, i, j, k, true, true, true)
      {
        AllReadBounds(start, run, i, j, k, max);
      }
    } else if !lagOk {
      WaitingCounts("a", pendingOk, lettersOk, max);
    } else if !pendingOk {
      PendingCounts("a", "p", lagOk, lettersOk, max);
    } else {
      var run := DeadCounts("a", lagOk, pendingOk, max);
    }
  }

  lemma AllReadBounds(start: World, run: seq<Label>, i: nat, j: nat, k: nat, max: int)
    requires ReadAlong(start, run, i, j, k, max)
    ensures !OverReports(start, run, i, j, k, true, true, true)
  {
    hide Seeded, Legal, Exec, Inv, SmoothRun, Loose, Lag;
    ReadStates(start, run, i, j, k, max);
    hide Drift;
    SameLetters(Exec(start, run[..k]), Exec(start, run));
    DriftReflexive(Exec(start, run[..i]));
    StatusFacts(start, run, Exec(start, run[..i]), Exec(start, run[..i]), Exec(start, run[..j]), Exec(start, run),
                MetricsOf(start, run, i, j, k, true, true, true), max);
  }

  lemma SameLetters(w: World, w': World)
    requires Drift(w, w')
    ensures w'.dlq == w.dlq
  {
  }

  // ---------------------------------------------------------------- a file that counts as succeeded unread

  // The file waits.
  lemma WaitingCounts(file: string, pendingOk: bool, lettersOk: bool, max: int)
    requires 1 <= max <= 0x7FFF_FFFF
    ensures ReadAlong(OneFile(file), [], 0, 0, 0, max)
    ensures OverReports(OneFile(file), [], 0, 0, 0, false, pendingOk, lettersOk)
  {
    EmptyRun(OneFile(file), max);
    OneEntry(file);
  }

  // Its message is pending.
  lemma PendingCounts(file: string, p: string, lagOk: bool, lettersOk: bool, max: int)
    requires 1 <= max <= 0x7FFF_FFFF && p != RECLAIMER
    ensures var (w, run) := (OneFile(file), PodRuns(p, PodSucceeded));
      ReadAlong(w, run, 3, 3, 3, max) && OverReports(w, run, 3, 3, 3, lagOk, false, lettersOk)
  {
    hide Exec, Legal;
    var (w, run) := (OneFile(file), PodRuns(p, PodSucceeded));
    AfterFirstSuccess(file, p, max);
    OneEntry(file);
    assert run[..3] == run;
    assert Undelivered(Exec(w, run).work) == {};
  }

  // One pod after the other.
  function Nth(k: nat): string {
    "p" + Itoa(k)
  }

  lemma NthIsNew(k: nat, m: nat)
    ensures Nth(k) != RECLAIMER && (Nth(k) == Nth(m) ==> k == m)
  {
    assert Nth(k)[0] == 'p' && RECLAIMER[0] == 'c';
    if Nth(k) == Nth(m) {
      assert Itoa(k) == Nth(k)[1..] && Itoa(m) == Nth(m)[1..];
      ParseFormatNat(k);
      ParseFormatNat(m);
    }
  }

  // The file has failed n times and waits again.
  ghost predicate Failed(w: World, file: string, n: nat) {
    && w.work.lastId == n + 1 && w.work.delivered == n && w.work.pel == map[] && w.dlq == EMPTY
    && n + 1 in w.past.items && w.past.items[n + 1] == Item(file, n)
    && w.past.done == {}
    && (forall id :: id in w.past.covered ==> id <= n)
    && (forall name :: name in w.past.names ==> exists k: nat :: k <= n && name == Nth(k))
  }

  lemma NextIsNew(w: World, file: string, n: nat)
    requires Failed(w, file, n)
    ensures Nth(n + 1) !in w.past.names && Nth(n + 1) != RECLAIMER
  {
    NthIsNew(n + 1, n);
    forall k: nat | k <= n ensures Nth(k) != Nth(n + 1) {
      NthIsNew(k, n + 1);
    }
  }

  lemma FailsAgain(w: World, file: string, n: nat, max: int)
    requires Failed(w, file, n)
    ensures var (id, after) := (n + 1, AfterPod(w, Nth(n + 1), PodFailed));
      && id in after.past.items && id in after.work.pel && id !in after.past.covered
      && (id < max ==> Enabled(after, Retry(id), max) && Failed(AfterWriteOff(after, id), file, id))
      && (id == max ==> Enabled(after, DeadLetter(id), max))
      && after.work.lastId == after.work.delivered == id && after.work.pel.Keys == {id} && after.past.done == {}
  {
    var after := AfterWriteOff(AfterPod(w, Nth(n + 1), PodFailed), n + 1);
    forall name | name in after.past.names ensures exists k: nat :: k <= n + 1 && name == Nth(k) {
      if name in w.past.names {
        var k: nat :| k <= n && name == Nth(k);
      }
    }
  }

  lemma {:induction false} FailsTimes(file: string, n: nat, max: int) returns (run: seq<Label>)
    requires n < max <= 0x7FFF_FFFF
    ensures Legal(OneFile(file), run, max) && SmoothRun(OneFile(file), run)
    ensures Failed(Exec(OneFile(file), run), file, n)
  {
    hide Legal, SmoothRun, Exec;
    var w := OneFile(file);
    if n == 0 {
      run := [];
      EmptyRun(w, max);
    } else {
      run := FailsTimes(file, n - 1, max);
      hide Enabled, AfterPod, AfterWriteOff;
      NextIsNew(Exec(w, run), file, n - 1);
      FailsAgain(Exec(w, run), file, n - 1, max);
      PodBlock(w, run, Nth(n), PodFailed, max);
      run := run + PodRuns(Nth(n), PodFailed);
      WriteOffBlock(w, run, n, max);
      run := run + WriteOff(n);
    }
  }

  // It has used all its attempts and is dead-lettered.
  lemma FileDies(file: string, max: int) returns (run: seq<Label>)
    requires 1 <= max <= 0x7FFF_FFFF
    ensures Legal(OneFile(file), run, max)
    ensures var end := Exec(OneFile(file), run);
      end.work.delivered == end.work.lastId && end.work.pel == map[] && end.past.done == {}
  {
    hide Legal, SmoothRun, Exec, AfterPod, AfterWriteOff;
    var w := OneFile(file);
    run := FailsTimes(file, max - 1, max);
    var waiting := Exec(w, run);
    NextIsNew(waiting, file, max - 1);
    FailsAgain(waiting, file, max - 1, max);
    hide Failed;
    PodBlock(w, run, Nth(max), PodFailed, max);
    run := run + PodRuns(Nth(max), PodFailed);
    RunAppend(w, run, DeadLetter(max), max);
    run := run + [DeadLetter(max)];
    RunAppend(w, run, AckCovered(max), max);
    run := run + [AckCovered(max)];
  }

  lemma DeadCounts(file: string, lagOk: bool, pendingOk: bool, max: int) returns (run: seq<Label>)
    requires 1 <= max <= 0x7FFF_FFFF
    ensures var n := |run|;
      ReadAlong(OneFile(file), run, n, n, n, max) && OverReports(OneFile(file), run, n, n, n, lagOk, pendingOk, false)
  {
    hide Legal, Exec;
    var w := OneFile(file);
    run := FileDies(file, max);
    assert run[..|run|] == run;
    NothingWaits(w, run, max);
    OneEntry(file);
  }

  lemma NothingWaits(w: World, run: seq<Label>, max: int)
    requires Seeded(w, max) && Legal(w, run, max)
    ensures var end := Exec(w, run); end.work.delivered == end.work.lastId ==> Lag(end.work) == 0
  {
    hide Legal, Exec;
    SeededInv(w, max);
    RunInv(w, run, max);
    var end := Exec(w, run);
    assert end.work.delivered == end.work.lastId ==> Undelivered(end.work) == {};
  }
}
