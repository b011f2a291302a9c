/** What whole runs conserve: no file is lost, success is not over-reported, retries are bounded. */
module Accounting {
  import opened Decimal
  import opened Streams
  import opened Pods
  import opened Protocol

  // ---------------------------------------------------------------- where a file can be

  // Undelivered or pending, and nothing written for it yet.
  function Owed(w: World, p: string -> bool): set<nat> {
    set id | id in w.past.items && Live(w, id) && id !in w.past.covered && p(w.past.items[id].file)
  }

  function Done(w: World, p: string -> bool): set<nat> {
    set id | id in w.past.items && id in w.past.done && p(w.past.items[id].file)
  }

  function Dead(w: World, p: string -> bool): set<nat> {
    set d | d in w.dlq.entries && p(w.dlq.entries[d].file)
  }

  function Count(w: World, p: string -> bool): nat {
    |Owed(w, p)| + |Done(w, p)| + |Dead(w, p)|
  }

  function Only(f: string): string -> bool {
    g => g == f
  }

  function All(): string -> bool {
    g => true
  }

  // A step that gives a message its outcome for the first time. Without failing calls and without
  // stops between a write and its acknowledgement, every step is smooth.
  predicate Smooth(w: World, l: Label) {
    match l
    case Retry(id) => id !in w.past.covered
    case DeadLetter(id) => id !in w.past.covered
    case AckDone(id) => id !in w.past.covered
    case _ => true
  }

  ghost predicate SmoothRun(w: World, run: seq<Label>) {
    run != [] ==> SmoothRun(w, run[..|run| - 1]) && Smooth(Exec(w, run[..|run| - 1]), run[|run| - 1])
  }

  // No message is still pending after its retry or dead letter was written.
  ghost predicate Tidy(w: World) {
    forall id :: id in w.past.covered ==> !Live(w, id)
  }

  // The part of the invariant that counting needs.
  ghost predicate Countable(w: World) {
    && StreamOk(w.work) && StreamOk(w.dlq) && ItemsOk(w) && BodiesOk(w)
    && (forall id :: id in w.past.covered ==> id in w.past.items)
    && (forall id :: id in w.past.done ==> id in w.past.items && !Live(w, id))
  }

  lemma InvCountable(w: World, max: int)
    requires Inv(w, max)
    ensures Countable(w) && AttemptsOk(w, max)
  {
  }

  lemma OwedAfterRetry(w: World, id: nat, max: int, p: string -> bool)
    requires Countable(w) && Enabled(w, Retry(id), max)
    ensures Owed(Apply(w, Retry(id)), p) ==
              Owed(w, p) - {id} + (if p(w.past.items[id].file) then {w.work.lastId + 1} else {})
  {
    LiveAfter(w, Retry(id), max);
  }

  lemma OwedAfter(w: World, l: Label, max: int, p: string -> bool)
    requires Countable(w) && Enabled(w, l, max)
    ensures var was := Owed(w, p);
      Owed(Apply(w, l), p) ==
        match l
        case Retry(id) => was - {id} + (if p(w.past.items[id].file) then {w.work.lastId + 1} else {})
        case DeadLetter(id) => was - {id}
        case AckDone(id) => was - {id}
        case _ => was
  {
    if l.Retry? {
      OwedAfterRetry(w, l.cause, max, p);
    } else {
      LiveAfter(w, l, max);
      hide Live, Enabled, StreamOk, ItemsOk, BodiesOk;
    }
  }

  lemma DoneAndDeadAfter(w: World, l: Label, max: int, p: string -> bool)
    requires Countable(w) && Enabled(w, l, max)
    ensures Done(Apply(w, l), p) == Done(w, p) +
              if l.AckDone? && l.id in w.past.items && p(w.past.items[l.id].file) then {l.id} else {}
    ensures Dead(Apply(w, l), p) == Dead(w, p) +
              if l.DeadLetter? && p(w.past.items[l.cause].file) then {w.dlq.lastId + 1} else {}
  {
  }

  /** One step: the count of a file never goes down, and a smooth step leaves it as it was. */
  lemma CountStep(w: World, l: Label, max: int, p: string -> bool)
    requires Inv(w, max) && Enabled(w, l, max)
    ensures Count(Apply(w, l), p) >= Count(w, p)
    ensures Smooth(w, l) ==> Count(Apply(w, l), p) == Count(w, p)
  {
    hide Inv, Apply;
    InvCountable(w, max);
    OwedAfter(w, l, max, p);
    DoneAndDeadAfter(w, l, max, p);
    if l.Retry? {
      assert w.work.lastId + 1 !in Owed(w, p);
    } else if l.DeadLetter? {
      assert w.dlq.lastId + 1 !in Dead(w, p);
    }
  }

  /** Over any run, under any failures and stops, no file's count drops; over a smooth run it is constant. */
  lemma {:induction false} CountRun(w: World, run: seq<Label>, max: int, p: string -> bool)
    requires Inv(w, max) && Legal(w, run, max)
    ensures Count(Exec(w, run), p) >= Count(w, p)
    ensures SmoothRun(w, run) ==> Count(Exec(w, run), p) == Count(w, p)
  {
    hide Inv, Enabled, Apply, Count, Smooth;
    if run != [] {
      var before := run[..|run| - 1];
      CountRun(w, before, max, p);
      RunInv(w, before, max);
      CountStep(Exec(w, before), run[|run| - 1], max, p);
    }
  }

  // A step that is not smooth counts its file once more.
  lemma UnsmoothStep(w: World, l: Label, max: int)
    requires Inv(w, max) && Enabled(w, l, max) && !Smooth(w, l)
    ensures Count(Apply(w, l), All()) == Count(w, All()) + 1
  {
    hide Inv, Apply;
    InvCountable(w, max);
    OwedAfter(w, l, max, All());
    DoneAndDeadAfter(w, l, max, All());
    if l.Retry? {
      assert w.work.lastId + 1 !in Owed(w, All());
    } else if l.DeadLetter? {
      assert w.dlq.lastId + 1 !in Dead(w, All());
    } else {
      AckedIsNew(w, l.id, max);
    }
  }

  lemma AckedIsNew(w: World, id: nat, max: int)
    requires Countable(w) && Enabled(w, AckDone(id), max)
    ensures id in w.past.items && id !in Done(w, All())
  {
  }

  // Without second outcomes no message is both a success and written off.
  lemma {:induction false} OutcomesExclude(w: World, run: seq<Label>, max: int)
    requires Seeded(w, max) && Legal(w, run, max) && SmoothRun(w, run)
    ensures Exec(w, run).past.done !! Exec(w, run).past.covered
  {
    if run != [] {
      var before := run[..|run| - 1];
      OutcomesExclude(w, before, max);
      SeededInv(w, max);
      RunInv(w, before, max);
      ExclusionStep(Exec(w, before), run[|run| - 1], max);
    }
  }

  lemma ExclusionStep(w: World, l: Label, max: int)
    requires OwnersOk(w) && Enabled(w, l, max) && Smooth(w, l) && w.past.done !! w.past.covered
    ensures Apply(w, l).past.done !! Apply(w, l).past.covered
  {
  }

  /** The overall count is constant over a run if and only if no message was given a second outcome. */
  lemma {:induction false} CountedOnceIff(w: World, run: seq<Label>, max: int)
    requires Inv(w, max) && Legal(w, run, max)
    ensures Count(Exec(w, run), All()) == Count(w, All()) <==> SmoothRun(w, run)
  {
    hide Inv, Enabled, Apply, Count, Smooth;
    if run != [] {
      var before := run[..|run| - 1];
      CountedOnceIff(w, before, max);
      CountRun(w, before, max, All());
      RunInv(w, before, max);
      CountStep(Exec(w, before), run[|run| - 1], max, All());
      if !Smooth(Exec(w, before), run[|run| - 1]) {
        UnsmoothStep(Exec(w, before), run[|run| - 1], max);
      }
    }
  }

  // ---------------------------------------------------------------- no loss

  ghost predicate Seeds(w: World, f: string) {
    exists id :: id in w.work.entries && w.work.entries[id].file == f
  }

  // Waiting with its body, acknowledged as successful, or dead-lettered.
  ghost predicate Accounted(w: World, f: string) {
    || (exists id :: Live(w, id) && id in w.work.entries && w.work.entries[id].file == f)
    || (exists id :: id in w.past.done && id in w.past.items && w.past.items[id].file == f)
    || (exists d :: d in w.dlq.entries && w.dlq.entries[d].file == f)
  }

  lemma CountOfSeed(w: World, max: int, f: string)
    requires Seeded(w, max)
    ensures Count(w, Only(f)) == |set id | id in w.work.entries && w.work.entries[id].file == f|
    ensures Seeds(w, f) ==> Count(w, Only(f)) >= 1
  {
    assert Owed(w, Only(f)) == set id | id in w.work.entries && w.work.entries[id].file == f;
    if Seeds(w, f) {
      var id :| id in w.work.entries && w.work.entries[id].file == f;
      assert id in Owed(w, Only(f));
    }
  }

  lemma CountedIsAccounted(w: World, max: int, f: string)
    requires Inv(w, max) && Count(w, Only(f)) >= 1
    ensures Accounted(w, f)
  {
    if |Owed(w, Only(f))| > 0 {
      var id :| id in Owed(w, Only(f));
      assert Live(w, id) && id in w.work.entries;
    } else if |Done(w, Only(f))| > 0 {
      var id :| id in Done(w, Only(f));
      assert id in w.past.done;
    } else {
      var d :| d in Dead(w, Only(f));
      assert d in w.dlq.entries;
    }
  }

  /** No loss: in every state reachable under any failures, a seeded file is waiting with its body,
      was acknowledged as successful, or is in the dead letter queue. */
  lemma NoLoss(w: World, run: seq<Label>, max: int, f: string)
    requires Seeded(w, max) && Legal(w, run, max) && Seeds(w, f)
    ensures Accounted(Exec(w, run), f)
  {
    SeededInv(w, max);
    CountOfSeed(w, max, f);
    CountRun(w, run, max, Only(f));
    RunInv(w, run, max);
    CountedIsAccounted(Exec(w, run), max, f);
  }

  /** A drained queue is a finished one: with nothing undelivered and nothing pending, every seeded
      file succeeded or is dead. */
  lemma DrainedIsFinished(w: World, run: seq<Label>, max: int, f: string)
    requires Seeded(w, max) && Legal(w, run, max) && Seeds(w, f)
    requires Undelivered(Exec(w, run).work) == {} && Exec(w, run).work.pel == map[]
    ensures var end := Exec(w, run);
      || (exists id :: id in end.past.done && id in end.past.items && end.past.items[id].file == f)
      || (exists d :: d in end.dlq.entries && end.dlq.entries[d].file == f)
  {
    NoLoss(w, run, max, f);
    SeededInv(w, max);
    RunInv(w, run, max);
    var end := Exec(w, run);
    assert forall id :: Live(end, id) && id in end.work.entries ==> id in Undelivered(end.work) || id in end.work.pel;
  }

  // ---------------------------------------------------------------- reported counts

  function WaitingIds(w: World): set<nat> {
    set id | id in w.past.items && Live(w, id)
  }

  lemma WaitingIsLagPlusPending(w: World, max: int)
    requires Inv(w, max)
    ensures |WaitingIds(w)| == Lag(w.work) + |w.work.pel|
  {
    assert WaitingIds(w) == Undelivered(w.work) + w.work.pel.Keys;
    assert |w.work.pel| == |w.work.pel.Keys|;
  }

  lemma TotalsOf(w: World, max: int)
    requires Inv(w, max)
    ensures Count(w, All()) <= |WaitingIds(w)| + |w.past.done| + |w.dlq.entries|
    ensures Tidy(w) ==> Count(w, All()) == |WaitingIds(w)| + |w.past.done| + |w.dlq.entries|
  {
    Subset(Owed(w, All()), WaitingIds(w));
    assert Done(w, All()) == w.past.done;
    assert Dead(w, All()) == w.dlq.entries.Keys;
    assert |w.dlq.entries| == |w.dlq.entries.Keys|;
    if Tidy(w) {
      assert Owed(w, All()) == WaitingIds(w);
    }
  }

  /** Total minus lag, pending and dead letters never exceeds the acknowledged successes; with nothing half
      done it equals them if and only if no message has been given two outcomes. */
  lemma SuccessIsNotOverReported(w: World, run: seq<Label>, max: int)
    requires Seeded(w, max) && Legal(w, run, max)
    ensures var end := Exec(w, run);
      && |w.work.entries| - Lag(end.work) - |end.work.pel| - |end.dlq.entries| <= |end.past.done|
      && (Tidy(end) ==>
            (|w.work.entries| - Lag(end.work) - |end.work.pel| - |end.dlq.entries| == |end.past.done|
             <==> SmoothRun(w, run)))
  {
    hide Inv, Legal, SmoothRun, Tidy;
    var end := Exec(w, run);
    SeededInv(w, max);
    CountRun(w, run, max, All());
    CountedOnceIff(w, run, max);
    RunInv(w, run, max);
    WaitingIsLagPlusPending(end, max);
    TotalsOf(end, max);
    assert Owed(w, All()) == w.work.entries.Keys;
    assert |w.work.entries| == |w.work.entries.Keys|;
  }

  // Where the files named f are, by the four states the status reports.
  function Queued(w: World, f: string): set<nat> {
    set id | id in w.past.items && id > w.work.delivered && w.past.items[id].file == f
  }

  function Running(w: World, f: string): set<nat> {
    set id | id in w.past.items && id <= w.work.delivered && id in w.work.pel && w.past.items[id].file == f
  }

  lemma OwedIsQueuedOrRunning(w: World, f: string)
    requires Tidy(w)
    ensures |Owed(w, Only(f))| == |Queued(w, f)| + |Running(w, f)|
  {
    assert Owed(w, Only(f)) == Queued(w, f) + Running(w, f);
    assert Queued(w, f) !! Running(w, f);
  }

  /** Without failures the four states partition the seeded files, name by name. */
  lemma Conservation(w: World, run: seq<Label>, max: int, f: string)
    requires Seeded(w, max) && Legal(w, run, max) && SmoothRun(w, run) && Tidy(Exec(w, run))
    ensures var end := Exec(w, run);
      |Queued(end, f)| + |Running(end, f)| + |Done(end, Only(f))| + |Dead(end, Only(f))|
        == |set id | id in w.work.entries && w.work.entries[id].file == f|
  {
    hide Inv, Legal, SmoothRun;
    var end := Exec(w, run);
    SeededInv(w, max);
    CountOfSeed(w, max, f);
    CountRun(w, run, max, Only(f));
    OwedIsQueuedOrRunning(end, f);
  }

  // ---------------------------------------------------------------- attempts tell the truth

  // The executions of a file that were written off: its messages with a retry or a dead letter.
  function WrittenOffOf(w: World, f: string): set<nat> {
    set id | id in w.past.covered && id in w.past.items && w.past.items[id].file == f
  }

  // Every write-off is that of another message.
  ghost predicate WriteOffsTrue(w: World) {
    forall f :: w.past.writeOffs[f] == |WrittenOffOf(w, f)|
  }

  // A waiting message has as many attempts as its file has write-offs; a file is dead iff it has used them all.
  ghost predicate AttemptsTrue(w: World, max: int) {
    && WriteOffsTrue(w)
    && (forall id :: id in w.past.items && Live(w, id) && id !in w.past.covered ==>
          w.past.items[id].attempts == w.past.writeOffs[w.past.items[id].file])
    && (forall f :: w.past.writeOffs[f] <= max)
    && (forall f :: w.past.writeOffs[f] == max <==> exists d :: d in w.dlq.entries && w.dlq.entries[d].file == f)
  }

  lemma OneTokenPerFile(w: World, id: nat)
    requires id in w.past.items && id in Owed(w, Only(w.past.items[id].file))
    requires Count(w, Only(w.past.items[id].file)) <= 1
    ensures Owed(w, Only(w.past.items[id].file)) == {id}
    ensures Dead(w, Only(w.past.items[id].file)) == {}
  {
    var f := w.past.items[id].file;
    Subset<nat>({id}, Owed(w, Only(f)));
    if other :| other in Owed(w, Only(f)) && other != id {
      Subset<nat>({id, other}, Owed(w, Only(f)));
    }
  }

  // Nothing else of that file is waiting or dead.
  lemma NoOtherToken(w: World, id: nat)
    requires Countable(w) && id in w.past.items && Live(w, id) && id !in w.past.covered
    requires Count(w, Only(w.past.items[id].file)) <= 1
    ensures forall other :: other in w.past.items && Live(w, other) && other !in w.past.covered && other != id ==>
              w.past.items[other].file != w.past.items[id].file
    ensures forall d :: d in w.dlq.entries ==> w.dlq.entries[d].file != w.past.items[id].file
  {
    hide Live, Countable;
    var f := w.past.items[id].file;
    assert id in Owed(w, Only(f));
    OneTokenPerFile(w, id);
    forall other | other in w.past.items && Live(w, other) && other !in w.past.covered && other != id
      ensures w.past.items[other].file != f
    {
      assert other !in Owed(w, Only(f));
    }
    forall d | d in w.dlq.entries ensures w.dlq.entries[d].file != f {
      assert d !in Dead(w, Only(f));
    }
  }

  lemma WrittenOffAfter(w: World, l: Label, max: int, f: string)
    requires Countable(w) && Enabled(w, l, max)
    ensures WrittenOffOf(Apply(w, l), f) ==
              WrittenOffOf(w, f)
              + if (l.Retry? || l.DeadLetter?) && w.past.items[l.cause].file == f then {l.cause} else {}
    ensures Apply(w, l).past.writeOffs[f] ==
              w.past.writeOffs[f] + if (l.Retry? || l.DeadLetter?) && w.past.items[l.cause].file == f then 1 else 0
  {
    hide Live, BodiesOk;
  }

  lemma WriteOffsStep(w: World, l: Label, max: int)
    requires Countable(w) && Enabled(w, l, max) && Smooth(w, l) && WriteOffsTrue(w)
    ensures WriteOffsTrue(Apply(w, l))
  {
    hide Enabled, Apply, Countable;
    forall f ensures Apply(w, l).past.writeOffs[f] == |WrittenOffOf(Apply(w, l), f)| {
      WrittenOffAfter(w, l, max, f);
    }
  }

  lemma LettersAfter(w: World, l: Label, max: int, f: string)
    requires Countable(w) && Enabled(w, l, max)
    ensures (exists d :: d in Apply(w, l).dlq.entries && Apply(w, l).dlq.entries[d].file == f) <==>
            (exists d :: d in w.dlq.entries && w.dlq.entries[d].file == f)
            || (l.DeadLetter? && w.past.items[l.cause].file == f)
  {
    var next := Apply(w, l).dlq.entries;
    if l.DeadLetter? {
      assert w.dlq.lastId + 1 in next;
      forall d | d in w.dlq.entries ensures d in next && next[d] == w.dlq.entries[d] {
      }
    }
  }

  lemma AttemptsTrueStep(w: World, l: Label, max: int)
    requires Countable(w) && AttemptsOk(w, max) && Enabled(w, l, max) && Smooth(w, l) && AttemptsTrue(w, max)
    requires forall f :: Count(w, Only(f)) <= 1
    ensures AttemptsTrue(Apply(w, l), max)
  {
    hide Live, Count, WriteOffsTrue;
    LiveAfter(w, l, max);
    WriteOffsStep(w, l, max);
    if l.Retry? || l.DeadLetter? {
      CauseIsWaiting(w, l.cause);
      NoOtherToken(w, l.cause);
    }
    forall f ensures Apply(w, l).past.writeOffs[f] == max <==>
                     exists d :: d in Apply(w, l).dlq.entries && Apply(w, l).dlq.entries[d].file == f
    {
      LettersAfter(w, l, max, f);
    }
  }

  lemma CauseIsWaiting(w: World, id: nat)
    requires Countable(w) && id in w.work.pel
    ensures id in w.past.items && Live(w, id)
  {
  }

  ghost predicate DistinctFiles(w: World) {
    var es := w.work.entries;
    forall i, j :: i in es && j in es && es[i].file == es[j].file ==> i == j
  }

  lemma DistinctSeedsCountOnce(w: World, max: int)
    requires Seeded(w, max) && DistinctFiles(w)
    ensures forall f :: Count(w, Only(f)) <= 1
  {
    forall f ensures Count(w, Only(f)) <= 1 {
      CountOfSeed(w, max, f);
      var named := set id | id in w.work.entries && w.work.entries[id].file == f;
      if id :| id in named {
        assert named == {id};
      }
    }
  }

  /** Without failures and with distinct seeded files, the attempts a waiting message carries are the number
      of messages of its file that were written off, and a file is dead iff there are max of them. */
  lemma {:induction false} AttemptsTrueRun(w: World, run: seq<Label>, max: int)
    requires Seeded(w, max) && DistinctFiles(w) && Legal(w, run, max) && SmoothRun(w, run)
    ensures AttemptsTrue(Exec(w, run), max)
  {
    if run != [] {
      hide Inv, Seeded, Enabled, Smooth, Apply, Count, AttemptsTrue, DistinctFiles;
      var before := run[..|run| - 1];
      AttemptsTrueRun(w, before, max);
      SeededInv(w, max);
      RunInv(w, before, max);
      InvCountable(Exec(w, before), max);
      DistinctSeedsCountOnce(w, max);
      forall f ensures Count(Exec(w, before), Only(f)) <= 1 {
        CountRun(w, before, max, Only(f));
      }
      AttemptsTrueStep(Exec(w, before), run[|run| - 1], max);
    }
  }

  // ---------------------------------------------------------------- retries are bounded

  // What is left of `top` attempts over the owed messages among ids 1 to n.
  function Budget(items: map<nat, Item>, owed: set<nat>, top: int, n: nat): int {
    if n == 0 then 0
    else Budget(items, owed, top, n - 1) + if n in owed && n in items then top - items[n].attempts else 0
  }

  function Left(w: World, top: int): int {
    Budget(w.past.items, Owed(w, All()), top, w.work.lastId)
  }

  lemma {:induction false} BudgetSame(items: map<nat, Item>, items': map<nat, Item>, owed: set<nat>, owed': set<nat>,
          top: int, n: nat)
    requires forall id :: 1 <= id <= n ==> (id in owed <==> id in owed') && (id in items <==> id in items')
    requires forall id :: 1 <= id <= n && id in items ==> items[id] == items'[id]
    ensures Budget(items, owed, top, n) == Budget(items', owed', top, n)
  {
    if n > 0 {
      BudgetSame(items, items', owed, owed', top, n - 1);
    }
  }

  lemma {:induction false} BudgetWithout(items: map<nat, Item>, owed: set<nat>, top: int, n: nat, k: nat)
    requires 1 <= k <= n && k in owed && k in items
    ensures Budget(items, owed - {k}, top, n) == Budget(items, owed, top, n) - (top - items[k].attempts)
  {
    if k == n {
      BudgetSame(items, items, owed, owed - {k}, top, n - 1);
    } else {
      BudgetWithout(items, owed, top, n - 1, k);
    }
  }

  lemma {:induction false} BudgetNonNegative(items: map<nat, Item>, owed: set<nat>, top: int, n: nat)
    requires forall id :: id in items ==> items[id].attempts <= top
    ensures Budget(items, owed, top, n) >= 0
  {
    if n > 0 {
      BudgetNonNegative(items, owed, top, n - 1);
    }
  }

  lemma BudgetReplace(items: map<nat, Item>, owed: set<nat>, top: int, n: nat, k: nat, next: Item)
    requires 1 <= k <= n && k in owed && k in items && n + 1 !in owed
    ensures Budget(items[n + 1 := next], owed - {k} + {n + 1}, top, n + 1)
              == Budget(items, owed, top, n) + items[k].attempts - next.attempts
  {
    BudgetWithout(items, owed, top, n, k);
    BudgetSame(items, items[n + 1 := next], owed - {k}, owed - {k} + {n + 1}, top, n);
  }

  lemma CauseIsOwed(w: World, id: nat, max: int)
    requires Countable(w) && Enabled(w, Retry(id), max) && id !in w.past.covered
    ensures id in Owed(w, All()) && w.work.lastId + 1 !in Owed(w, All())
    ensures id in w.past.items && 1 <= id <= w.work.lastId
  {
  }

  lemma BudgetAfterRetry(w: World, id: nat, max: int, top: int)
    requires Countable(w) && Enabled(w, Retry(id), max) && id !in w.past.covered
    ensures Left(Apply(w, Retry(id)), top) == Left(w, top) - 1
  {
    hide Countable, Enabled, Live, Owed;
    OwedAfter(w, Retry(id), max, All());
    CauseIsOwed(w, id, max);
    var item := w.past.items[id];
    BudgetReplace(w.past.items, Owed(w, All()), top, w.work.lastId, id, Item(item.file, item.attempts + 1));
  }

  lemma PendingIsItem(w: World, id: nat)
    requires Countable(w) && id in w.work.pel
    ensures id in w.past.items
  {
  }

  lemma BudgetAfterExit(w: World, l: Label, id: nat, max: int, top: int)
    requires l == DeadLetter(id) || l == AckDone(id)
    requires Countable(w) && Enabled(w, l, max) && id in w.past.items && id !in w.past.covered
    ensures Left(Apply(w, l), top) == Left(w, top) - (top - w.past.items[id].attempts)
  {
    OwedAfter(w, l, max, All());
    BudgetWithout(w.past.items, Owed(w, All()), top, w.work.lastId, id);
  }

  lemma BudgetAfterOther(w: World, l: Label, max: int, top: int)
    requires !l.Retry? && !l.DeadLetter? && !l.AckDone?
    requires Countable(w) && Enabled(w, l, max)
    ensures Left(Apply(w, l), top) == Left(w, top)
  {
    OwedAfter(w, l, max, All());
  }

  /** A smooth step that writes off an execution spends at least one of the attempts that are left, and
      one that adds a work message spends at least one of those that may still be retried. */
  lemma BudgetStep(w: World, l: Label, max: int)
    requires Countable(w) && AttemptsOk(w, max) && Enabled(w, l, max) && Smooth(w, l)
    ensures var w' := Apply(w, l);
      && |w'.past.writeOffs| + Left(w', max) <= |w.past.writeOffs| + Left(w, max)
      && w'.work.lastId + Left(w', max - 1) <= w.work.lastId + Left(w, max - 1)
    ensures l.Retry? || l.DeadLetter? ==> Left(Apply(w, l), max) == Left(w, max) - 1
  {
    hide Live, Left, Countable;
    if l.Retry? {
      BudgetAfterRetry(w, l.cause, max, max);
      BudgetAfterRetry(w, l.cause, max, max - 1);
    } else if l.DeadLetter? || l.AckDone? {
      var id := if l.DeadLetter? then l.cause else l.id;
      PendingIsItem(w, id);
      BudgetAfterExit(w, l, id, max, max);
      BudgetAfterExit(w, l, id, max, max - 1);
    } else {
      BudgetAfterOther(w, l, max, max);
      BudgetAfterOther(w, l, max, max - 1);
    }
  }

  lemma {:induction false} BudgetRun(w: World, run: seq<Label>, max: int)
    requires Inv(w, max) && Legal(w, run, max) && SmoothRun(w, run)
    ensures var end := Exec(w, run);
      && |end.past.writeOffs| + Left(end, max) <= |w.past.writeOffs| + Left(w, max)
      && end.work.lastId + Left(end, max - 1) <= w.work.lastId + Left(w, max - 1)
  {
    hide Inv, Left, Enabled, Smooth, Apply;
    if run != [] {
      var before := run[..|run| - 1];
      BudgetRun(w, before, max);
      RunInv(w, before, max);
      InvCountable(Exec(w, before), max);
      BudgetStep(Exec(w, before), run[|run| - 1], max);
    }
  }

  lemma {:induction false} BudgetOfSeed(w: World, max: int, top: int, n: nat)
    requires Seeded(w, max) && n <= w.work.lastId
    ensures Budget(w.past.items, Owed(w, All()), top, n) == n * top
  {
    if n > 0 {
      BudgetOfSeed(w, max, top, n - 1);
      assert n in Owed(w, All());
      assert n * top == (n - 1) * top + top;
    }
  }

  /** Retries terminate: without failures, at most total * max executions are ever written off, and the
      work stream never receives more than total * max messages, the seeded ones included. */
  lemma RetriesAreBounded(w: World, run: seq<Label>, max: int)
    requires Seeded(w, max) && Legal(w, run, max) && SmoothRun(w, run)
    ensures |Exec(w, run).past.writeOffs| <= w.work.lastId * max
    ensures Exec(w, run).work.lastId <= w.work.lastId * max
  {
    hide Legal, SmoothRun, BodiesOk, OwnersOk, SettledOk, PodsOk, Live;
    var (end, n) := (Exec(w, run), w.work.lastId);
    SeededInv(w, max);
    RunInv(w, run, max);
    BudgetRun(w, run, max);
    BudgetOfSeed(w, max, max, n);
    BudgetOfSeed(w, max, max - 1, n);
    BudgetNonNegative(end.past.items, Owed(end, All()), max, end.work.lastId);
    BudgetNonNegative(end.past.items, Owed(end, All()), max - 1, end.work.lastId);
    assert n + n * (max - 1) == n * max;
  }

  // ---------------------------------------------------------------- attempt bounds

  /** In every reachable state a work message reads back fewer than max attempts, whatever the reader's
      fallback, and a dead letter reads back exactly max. */
  lemma AttemptBounds(w: World, run: seq<Label>, max: int, fallback: int)
    requires Seeded(w, max) && Legal(w, run, max)
    ensures var end := Exec(w, run);
      && (forall id :: id in end.work.entries ==> 0 <= ParseAttempts(end.work.entries[id].attempts, fallback) < max)
      && (forall d :: d in end.dlq.entries ==> ParseAttempts(end.dlq.entries[d].attempts, fallback) == max)
  {
    SeededInv(w, max);
    RunInv(w, run, max);
    var end := Exec(w, run);
    forall id | id in end.work.entries ensures 0 <= ParseAttempts(end.work.entries[id].attempts, fallback) < max {
      assert id in end.past.items;
      ParseAttemptsOfItoa(end.past.items[id].attempts, fallback);
    }
    ParseAttemptsOfItoa(max, fallback);
  }

  // ---------------------------------------------------------------- ownership

  ghost predicate OneMessage(w: World, pod: string) {
    var s := w.work;
    && (forall i, j :: i in OwnedBy(s, pod) && j in OwnedBy(s, pod) ==> i == j)
    && (forall id :: id in s.pel ==> id <= s.delivered && id in s.entries)
    && (forall id :: id in OwnedBy(s, pod) ==> id in w.past.ran && w.past.ran[id] == pod)
  }

  lemma InvOneMessage(w: World, pod: string)
    requires StreamOk(w.work) && ItemsOk(w) && BodiesOk(w) && OwnersOk(w) && pod != RECLAIMER
    ensures OneMessage(w, pod)
  {
    forall id | id in w.work.pel ensures id in w.work.entries {
      assert Live(w, id);
    }
  }

  /** A pod holds at most one pending message, and every pending message lies at or below the cursor
      with its body in the stream, so the controller acts on exactly the message its pod ran. */
  lemma OneMessagePerPod(w: World, run: seq<Label>, max: int, pod: string)
    requires Seeded(w, max) && Legal(w, run, max) && pod != RECLAIMER
    ensures OneMessage(Exec(w, run), pod)
  {
    hide Seeded, Legal, Exec, OneMessage;
    SeededInv(w, max);
    RunInv(w, run, max);
    InvOneMessage(Exec(w, run), pod);
  }

  // A pending message of a pod that is alive is still in that pod's name.
  ghost predicate LivePodsOwn(w: World) {
    var h := w.past;
    forall id :: id in w.work.pel && id in h.ran && AliveIn(w, h.ran[id]) ==> w.work.pel[id] == h.ran[id]
  }

  lemma LiveOwnStep(w: World, l: Label, max: int)
    requires StreamOk(w.work) && OwnersOk(w) && PodsOk(w) && Enabled(w, l, max) && LivePodsOwn(w)
    ensures LivePodsOwn(Apply(w, l))
  {
    if l.PodMoves? && !Alive(w.pods[l.name]) {
      NotAliveIsStable(w.pods[l.name], l.to);
    }
  }

  /** The reclaimer never takes a message from a pod that is pending or running without a crashed
      container, whatever moves come between the pending snapshot, the pod list and the claim. */
  lemma {:induction false} ReclaimerSparesLivePods(w: World, run: seq<Label>, max: int)
    requires Seeded(w, max) && Legal(w, run, max)
    ensures LivePodsOwn(Exec(w, run))
  {
    if run != [] {
      var before := run[..|run| - 1];
      ReclaimerSparesLivePods(w, before, max);
      SeededInv(w, max);
      RunInv(w, before, max);
      LiveOwnStep(Exec(w, before), run[|run| - 1], max);
    }
  }

  // A pod that is alive and has shown no failure still holds its message, with nothing written for it.
  ghost predicate HealthyPodsHold(w: World) {
    var h := w.past;
    forall id :: id in h.ran && AliveIn(w, h.ran[id]) && h.ran[id] !in h.faulted ==>
      id in w.work.pel && w.work.pel[id] == h.ran[id] && id !in h.covered
  }

  lemma HealthyMove(w: World, l: Label)
    requires StreamOk(w.work) && OwnersOk(w) && PodsOk(w) && ClusterEnabled(w, l) && HealthyPodsHold(w)
    ensures HealthyPodsHold(Apply(w, l))
  {
    if l.PodMoves? && !Alive(w.pods[l.name]) {
      NotAliveIsStable(w.pods[l.name], l.to);
    }
  }

  lemma HealthyCall(w: World, l: Label, max: int)
    requires OwnersOk(w) && PodsOk(w) && !OfCluster(l) && Enabled(w, l, max) && HealthyPodsHold(w)
    ensures HealthyPodsHold(Apply(w, l))
  {
  }

  lemma HealthyStep(w: World, l: Label, max: int)
    requires StreamOk(w.work) && OwnersOk(w) && PodsOk(w) && Enabled(w, l, max) && HealthyPodsHold(w)
    ensures HealthyPodsHold(Apply(w, l))
  {
    hide HealthyPodsHold, Apply, OwnersOk, PodsOk, StreamOk;
    if OfCluster(l) {
      HealthyMove(w, l);
    } else {
      HealthyCall(w, l, max);
    }
  }

  /** While a pod is alive and has shown no failure, its message is never taken from it, retried,
      dead-lettered or acknowledged. */
  lemma {:induction false} HealthyPodKeepsItsMessage(w: World, run: seq<Label>, max: int)
    requires Seeded(w, max) && Legal(w, run, max)
    ensures HealthyPodsHold(Exec(w, run))
  {
    if run != [] {
      var before := run[..|run| - 1];
      HealthyPodKeepsItsMessage(w, before, max);
      SeededInv(w, max);
      RunInv(w, before, max);
      HealthyStep(Exec(w, before), run[|run| - 1], max);
    }
  }
}
