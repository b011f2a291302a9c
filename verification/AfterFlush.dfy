/** What the status says after a flush: every file without a letter counts as succeeded. */
module AfterFlush {
  import opened Decimal
  import opened Streams
  import opened Protocol
  import opened Accounting
  import opened Flush
  import opened FlushProperties
  import opened Reconciler

  function Files(es: map<nat, Body>): set<string> {
    set id | id in es :: es[id].file
  }

  function DoneBodies(w: World): map<nat, Body> {
    map id | id in w.past.done && id in w.past.items :: Body(w.past.items[id].file, Itoa(w.past.items[id].attempts))
  }

  // Seeded files that neither succeeded nor have a letter.
  function Dropped(start: World, end: World, after: map<nat, Body>): set<string> {
    Files(start.work.entries) - Files(DoneBodies(end)) - Files(after)
  }

  // Files that succeeded and have a letter all the same.
  function Buried(end: World, after: map<nat, Body>): set<string> {
    Files(DoneBodies(end)) * Files(after)
  }

  ghost predicate OnePerName(es: map<nat, Body>) {
    forall i, j :: i in es && j in es && es[i].file == es[j].file ==> i == j
  }

  lemma FilesWithout(es: map<nat, Body>, id: nat)
    requires id in es
    ensures Files(es) == Files(es - {id}) + {es[id].file}
  {
    forall f | f in Files(es) ensures f in Files(es - {id}) + {es[id].file} {
      var k :| k in es && es[k].file == f;
      if k != id {
        assert k in es - {id} && (es - {id})[k].file == f;
      }
    }
  }

  lemma {:induction false} FilesCount(es: map<nat, Body>)
    requires OnePerName(es)
    ensures |Files(es)| == |es|
  {
    if es == map[] {
      assert Files(es) == {};
    } else {
      var id :| id in es;
      FilesCount(es - {id});
      FilesWithout(es, id);
      assert es[id].file !in Files(es - {id});
      assert |es - {id}| == |es| - 1 by {
        assert (es - {id}).Keys == es.Keys - {id};
        assert |es| == |es.Keys| && |es - {id}| == |(es - {id}).Keys|;
      }
    }
  }

  // Retries and letters carry files that were seeded.
  ghost predicate FromSeeds(start: World, w: World) {
    && (forall id :: id in w.past.items ==> Seeds(start, w.past.items[id].file))
    && (forall d :: d in w.dlq.entries ==> Seeds(start, w.dlq.entries[d].file))
  }

  lemma {:induction false} RunIsFromSeeds(start: World, run: seq<Label>, max: int)
    requires Seeded(start, max) && Legal(start, run, max)
    ensures FromSeeds(start, Exec(start, run))
  {
    if run != [] {
      hide Seeded, Enabled, Apply, FromSeeds;
      RunIsFromSeeds(start, run[..|run| - 1], max);
      FromSeedsStep(start, Exec(start, run[..|run| - 1]), run[|run| - 1]);
    }
  }

  lemma FromSeedsStep(start: World, w: World, l: Label)
    requires FromSeeds(start, w)
    ensures FromSeeds(start, Apply(w, l))
  {
    hide Seeds;
  }

  lemma DoneOncePerName(start: World, run: seq<Label>, max: int)
    requires Seeded(start, max) && DistinctFiles(start) && Legal(start, run, max) && SmoothRun(start, run)
    ensures var end := Exec(start, run);
      && OnePerName(DoneBodies(end)) && |DoneBodies(end)| == |end.past.done|
      && (forall f :: f in Files(DoneBodies(end)) ==> !HasLetter(end.dlq.entries, f))
  {
    hide Seeded, Legal, SmoothRun, Exec, DistinctFiles;
    var end := Exec(start, run);
    SeededInv(start, max);
    RunInv(start, run, max);
    InvCountable(end, max);
    DistinctSeedsCountOnce(start, max);
    forall f ensures Count(end, Only(f)) <= 1 {
      CountRun(start, run, max, Only(f));
    }
    hide Inv;
    CountedOnceNames(end);
  }

  lemma CountedOnceNames(end: World)
    requires (forall f :: Count(end, Only(f)) <= 1) && (forall id :: id in end.past.done ==> id in end.past.items)
    ensures OnePerName(DoneBodies(end)) && |DoneBodies(end)| == |end.past.done|
    ensures forall f :: f in Files(DoneBodies(end)) ==> !HasLetter(end.dlq.entries, f)
  {
    var bodies := DoneBodies(end);
    assert bodies.Keys == end.past.done;
    assert |bodies| == |bodies.Keys|;
    forall i, j | i in bodies && j in bodies && bodies[i].file == bodies[j].file ensures i == j {
      assert Count(end, Only(bodies[i].file)) <= 1;
      Subset<nat>({i, j}, Done(end, Only(bodies[i].file)));
    }
    forall f | f in Files(bodies) ensures !HasLetter(end.dlq.entries, f) {
      var i :| i in bodies && bodies[i].file == f;
      assert Count(end, Only(f)) <= 1;
      Subset<nat>({i}, Done(end, Only(f)));
      assert Dead(end, Only(f)) == {};
      assert forall d :: d in end.dlq.entries && end.dlq.entries[d].file == f ==> d in Dead(end, Only(f));
    }
  }

  // The letters after a flush: one per name, and every name was seeded.
  lemma LettersAreNames(start: World, end: World, after: map<nat, Body>, max: int)
    requires FromSeeds(start, end) && (forall f :: FlushedRun(end, after, f, max))
    requires forall id :: id in start.work.entries ==> start.work.entries[id].file != ""
    ensures OnePerName(after) && Files(after) <= Files(start.work.entries)
    ensures forall f :: f in Files(after) <==> HasLetter(end.dlq.entries, f) || RetriedInStream(end, f)
  {
    forall f ensures f in Files(after) <==> HasLetter(after, f) {
      if HasLetter(after, f) {
        var d :| d in after && after[d].file == f;
      }
    }
    forall f ensures f in Files(after) <==> HasLetter(end.dlq.entries, f) || RetriedInStream(end, f) {
      assert FlushedRun(end, after, f, max);
    }
    forall i, j | i in after && j in after && after[i].file == after[j].file ensures i == j {
      assert FlushedRun(end, after, after[i].file, max) && HasLetter(after, after[i].file);
    }
    forall f | f in Files(after) ensures f in Files(start.work.entries) {
      NameIsSeeded(start, end, f);
    }
  }

  lemma NameIsSeeded(start: World, end: World, f: string)
    requires FromSeeds(start, end) && (HasLetter(end.dlq.entries, f) || RetriedInStream(end, f))
    requires forall id :: id in start.work.entries ==> start.work.entries[id].file != ""
    ensures f in Files(start.work.entries)
  {
    if HasLetter(end.dlq.entries, f) {
      assert Seeds(start, f);
    } else {
      var id :| id in end.past.items && Name(end.past.items[id].file) == f;
      assert Seeds(start, end.past.items[id].file);
    }
  }

  lemma Differences(seeds: set<string>, done: set<string>, letters: set<string>)
    requires done <= seeds && letters <= seeds
    ensures |seeds| - |letters| == |done| + |seeds - done - letters| - |done * letters|
  {
    assert seeds == letters + (seeds - letters);
    assert seeds - letters == (seeds - done - letters) + (done - letters);
    assert done == (done - letters) + done * letters;
  }

  /** After a fault-free flush the status reports as succeeded the files that succeeded, plus those the flush
      dropped, less those it buried: a never-retried file that was still waiting counts as a success, and a
      success whose file left a retried message in the stream counts as a failure. */
  lemma ReportAfterFlush(start: World, run: seq<Label>, max: int, after: map<nat, Body>, final: map<string, int>)
    requires Seeded(start, max) && DistinctFiles(start) && Legal(start, run, max) && SmoothRun(start, run)
    requires forall id :: id in start.work.entries ==> start.work.entries[id].file != ""
    requires Flushed(Exec(start, run).work.entries, Exec(start, run).dlq, after, final, max)
    ensures var (end, total) := (Exec(start, run), |start.work.entries|);
      && Reported(total, Metrics(Some(0), Some(0), Some(|after|))).succeeded
           == |end.past.done| + |Dropped(start, end, after)| - |Buried(end, after)|
      && (forall f :: f in Dropped(start, end, after) <==>
            f in Files(start.work.entries) && f !in Files(DoneBodies(end))
            && !HasLetter(end.dlq.entries, f) && !RetriedInStream(end, f))
      && (forall f :: f in Buried(end, after) <==> f in Files(DoneBodies(end)) && RetriedInStream(end, f))
  {
    hide Seeded, Legal, SmoothRun, Exec, Flushed, FlushedRun, HasLetter, RetriedInStream, FromSeeds;
    var end := Exec(start, run);
    forall f ensures FlushedRun(end, after, f, max) {
      FlushOfRun(start, run, max, after, final, f);
    }
    RunIsFromSeeds(start, run, max);
    LettersAreNames(start, end, after, max);
    DoneOncePerName(start, run, max);
    DoneIsSeeded(start, end);
    FilesCount(start.work.entries);
    FilesCount(after);
    FilesCount(DoneBodies(end));
    Differences(Files(start.work.entries), Files(DoneBodies(end)), Files(after));
    Subset(Files(after), Files(start.work.entries));
  }

  lemma DoneIsSeeded(start: World, end: World)
    requires FromSeeds(start, end)
    ensures Files(DoneBodies(end)) <= Files(start.work.entries)
  {
    forall f | f in Files(DoneBodies(end)) ensures f in Files(start.work.entries) {
      assert Seeds(start, f);
    }
  }
}
