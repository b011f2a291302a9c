/** Building blocks of concrete runs, and what a Job of the batch allows.

    The Job asks for as many succeeded pods as files were seeded, and fails once more than two pods have failed. */
module RunBlocks {
  import opened Decimal
  import opened Streams
  import opened Pods
  import opened Protocol
  import opened Accounting

  const BACKOFF_LIMIT := 2

  // Pods that succeeded count even when they are gone.
  ghost predicate JobMayBeComplete(start: World, w: World) {
    |w.past.finished| >= |start.work.entries|
  }

  function FailedPods(w: World): set<string> {
    set n | n in w.pods && w.pods[n].phase.PodFailed?
  }

  ghost predicate JobMayHaveFailed(start: World, w: World) {
    !JobMayBeComplete(start, w) && |FailedPods(w)| > BACKOFF_LIMIT
  }

  const FAILED := Pod(PodFailed, [], [], true)
  const SUCCEEDED := Pod(PodSucceeded, [], [], true)

  // ---------------------------------------------------------------- building blocks of runs

  function OneFile(file: string): World {
    Start(XAdd(EMPTY, Body(file, Itoa(0))))
  }

  function TwoFiles(a: string, b: string): World {
    Start(XAdd(XAdd(EMPTY, Body(a, Itoa(0))), Body(b, Itoa(0))))
  }

  lemma RunAppend(w: World, run: seq<Label>, l: Label, max: int)
    requires Legal(w, run, max) && Enabled(Exec(w, run), l, max)
    ensures Legal(w, run + [l], max) && Exec(w, run + [l]) == Apply(Exec(w, run), l)
    ensures SmoothRun(w, run + [l]) <==> SmoothRun(w, run) && Smooth(Exec(w, run), l)
  {
    assert (run + [l])[..|run|] == run;
  }

  lemma EmptyRun(w: World, max: int)
    ensures Legal(w, [], max) && SmoothRun(w, []) && Exec(w, []) == w
  {
  }

  // A pod starts, claims the next message, and comes to its end.
  function PodRuns(n: string, phase: Phase): seq<Label> {
    [Spawn(n)] + [ClaimNext(n)] + [PodMoves(n, Pod(phase, [], [], true))]
  }

  function AfterPod(w: World, n: string, phase: Phase): World {
    var (s, h) := (w.work, w.past);
    World(Deliver(s, s.delivered + 1, n), w.dlq, w.pods[n := Pod(phase, [], [], true)],
          h.(names := h.names + {n}, ran := h.ran[s.delivered + 1 := n],
             finished := if phase.PodSucceeded? then h.finished + {n} else h.finished,
             faulted := if phase.PodFailed? then h.faulted + {n} else h.faulted))
  }

  lemma ClaimBlock(w0: World, run: seq<Label>, n: string, max: int)
    requires Legal(w0, run, max) && SmoothRun(w0, run)
    requires var w := Exec(w0, run); n !in w.past.names && n != RECLAIMER && w.work.delivered < w.work.lastId
    ensures var (w, after) := (Exec(w0, run), Exec(w0, run + [Spawn(n)] + [ClaimNext(n)]));
      && Legal(w0, run + [Spawn(n)] + [ClaimNext(n)], max) && SmoothRun(w0, run + [Spawn(n)] + [ClaimNext(n)])
      && after.work == Deliver(w.work, w.work.delivered + 1, n) && after.dlq == w.dlq
      && after.pods == w.pods[n := Pod(PodPending, [], [], true)]
      && after.past == w.past.(names := w.past.names + {n}, ran := w.past.ran[w.work.delivered + 1 := n])
  {
    hide Legal, SmoothRun, Exec;
    RunAppend(w0, run, Spawn(n), max);
    RunAppend(w0, run + [Spawn(n)], ClaimNext(n), max);
    var pods := Exec(w0, run).pods;
    assert pods[n := NEW_POD][n := Pod(PodPending, [], [], true)] == pods[n := Pod(PodPending, [], [], true)];
  }

  lemma PodBlock(w0: World, run: seq<Label>, n: string, phase: Phase, max: int)
    requires Legal(w0, run, max) && SmoothRun(w0, run) && (phase.PodSucceeded? || phase.PodFailed?)
    requires var w := Exec(w0, run); n !in w.past.names && n != RECLAIMER && w.work.delivered < w.work.lastId
    ensures Legal(w0, run + PodRuns(n, phase), max) && SmoothRun(w0, run + PodRuns(n, phase))
    ensures Exec(w0, run + PodRuns(n, phase)) == AfterPod(Exec(w0, run), n, phase)
  {
    hide Legal, SmoothRun, Exec;
    ClaimBlock(w0, run, n, max);
    var ended := Pod(phase, [], [], true);
    RunAppend(w0, run + [Spawn(n)] + [ClaimNext(n)], PodMoves(n, ended), max);
    assert run + PodRuns(n, phase) == run + [Spawn(n)] + [ClaimNext(n)] + [PodMoves(n, ended)];
    var pods := Exec(w0, run).pods;
    assert pods[n := Pod(PodPending, [], [], true)][n := ended] == pods[n := ended];
  }

  // A pending message is enqueued again and acknowledged.
  function WriteOff(id: nat): seq<Label> {
    [Retry(id)] + [AckCovered(id)]
  }

  function AfterWriteOff(w: World, id: nat): World
    requires id in w.past.items
  {
    var (s, h) := (w.work, w.past);
    var next := Item(h.items[id].file, h.items[id].attempts + 1);
    World(XAck(XAdd(s, Body(next.file, Itoa(next.attempts))), id), w.dlq, w.pods,
          h.(items := h.items[s.lastId + 1 := next], covered := h.covered + {id},
             writeOffs := h.writeOffs + multiset{next.file}))
  }

  lemma WriteOffBlock(w0: World, run: seq<Label>, id: nat, max: int)
    requires Legal(w0, run, max) && SmoothRun(w0, run)
    requires Enabled(Exec(w0, run), Retry(id), max) && id !in Exec(w0, run).past.covered
    ensures Legal(w0, run + WriteOff(id), max) && SmoothRun(w0, run + WriteOff(id))
    ensures Exec(w0, run + WriteOff(id)) == AfterWriteOff(Exec(w0, run), id)
  {
    hide Legal, SmoothRun, Exec;
    RunAppend(w0, run, Retry(id), max);
    RunAppend(w0, run + [Retry(id)], AckCovered(id), max);
    assert run + WriteOff(id) == run + [Retry(id)] + [AckCovered(id)];
  }

  // The reclaimer takes a message; its acknowledgement has no effect, and the next pass takes it again.
  function TakeTwice(id: nat): seq<Label> {
    [Take({id})] + [Take({id})]
  }

  function AfterTakes(w: World, id: nat): World {
    w.(work := w.work.(pel := w.work.pel[id := RECLAIMER]))
  }

  lemma TakeBlock(w0: World, run: seq<Label>, id: nat, max: int)
    requires Legal(w0, run, max) && SmoothRun(w0, run) && Enabled(Exec(w0, run), Take({id}), max)
    requires var w := Exec(w0, run); w.work.pel.Keys <= w.work.entries.Keys && RECLAIMER !in w.pods
    ensures Legal(w0, run + TakeTwice(id), max) && SmoothRun(w0, run + TakeTwice(id))
    ensures Exec(w0, run + TakeTwice(id)) == AfterTakes(Exec(w0, run), id)
  {
    hide Legal, SmoothRun, Exec, Alive;
    var w := Exec(w0, run);
    assert id in w.work.pel && id in w.work.entries;
    RunAppend(w0, run, Take({id}), max);
    assert XClaim(w.work, {id}, RECLAIMER) == AfterTakes(w, id).work;
    RunAppend(w0, run + [Take({id})], Take({id}), max);
    assert run + TakeTwice(id) == run + [Take({id})] + [Take({id})];
  }
}
