/** The controller's surroundings: the queue server, the pods, and the record of the run so far.

    Before every call of the controller, pods make any number of moves. Every call that takes effect is
    recorded as one step, so a run's prefixes are the states in which the controller may be stopped. */
module Clusters {
  import opened Streams
  import opened ValkeyClient
  import opened Pods
  import opened Protocol
  import opened Accounting

  // What moves of pods leave alone.
  ghost predicate Drift(w: World, w': World) {
    && w'.work.entries == w.work.entries && w'.work.lastId == w.work.lastId && w'.dlq == w.dlq
    && w.work.delivered <= w'.work.delivered
    && (forall id :: id in w.work.pel ==> id in w'.work.pel && w'.work.pel[id] == w.work.pel[id])
    && (forall id :: id in w'.work.pel ==> id in w.work.pel || (w.work.delivered < id && w'.work.pel[id] != RECLAIMER))
    && w'.past.items == w.past.items && w'.past.covered == w.past.covered && w'.past.done == w.past.done
    && PastGrows(w, w')
    && (forall id :: Live(w', id) <==> Live(w, id))
  }

  // Facts about pods and messages that stay true once they are.
  ghost predicate PastGrows(w: World, w': World) {
    && w.work.delivered <= w'.work.delivered
    && w.past.names <= w'.past.names && w.past.finished <= w'.past.finished && w.past.faulted <= w'.past.faulted
    && w.past.covered <= w'.past.covered && w.past.done <= w'.past.done
    && (forall id :: id in w.past.items ==> id in w'.past.items && w'.past.items[id] == w.past.items[id])
    && (forall id :: id in w.past.ran ==> id in w'.past.ran && w'.past.ran[id] == w.past.ran[id])
    && (forall n :: n in w.past.names && !AliveIn(w, n) ==> !AliveIn(w', n))
    && (forall n :: n in w.past.names && !AliveIn(w, n) && n in w'.past.finished ==> n in w.past.finished)
    && (forall id :: id in w.past.items && !Live(w, id) ==> !Live(w', id))
    && (forall id :: id in w.past.items && id !in w.work.entries ==> id !in w'.work.entries)
    && PodsPass(w, w')
  }

  // A pod that is gone stays gone, and one that has come to its end keeps its phase.
  ghost predicate PodsPass(w: World, w': World) {
    forall n :: n in w.past.names && n in w'.pods ==>
      && n in w.pods
      && (w.pods[n].phase.PodSucceeded? || w.pods[n].phase.PodFailed? ==> w'.pods[n].phase == w.pods[n].phase)
  }

  // The same, and no pending message outside `except` has changed hands.
  ghost predicate Keeps(w: World, w': World, except: set<nat>) {
    && PastGrows(w, w')
    && (forall id :: id in w.work.pel && id !in except ==> id in w'.work.pel && w'.work.pel[id] == w.work.pel[id])
  }

  // Messages still waiting although their outcome has been written.
  ghost function Loose(w: World): set<nat> {
    set id | id in w.past.covered && Live(w, id)
  }

  ghost function Parked(w: World): set<nat> {
    OwnedBy(w.work, RECLAIMER)
  }

  lemma KeepsTransitive(a: World, b: World, c: World, except: set<nat>)
    requires Keeps(a, b, except) && Keeps(b, c, except)
    ensures Keeps(a, c, except)
  {
  }

  lemma PendingIsDelivered(s: Stream, id: nat)
    requires StreamOk(s) && id in s.pel
    ensures id <= s.delivered
  {
  }

  lemma KeepsReflexive(w: World)
    ensures Keeps(w, w, {})
  {
  }

  lemma KeepsWeaker(a: World, b: World, except: set<nat>, more: set<nat>)
    requires Keeps(a, b, except) && except <= more
    ensures Keeps(a, b, more)
  {
  }

  lemma DriftItems(w: World, w': World)
    requires Drift(w, w')
    ensures w'.past.items == w.past.items && w'.past.covered == w.past.covered
  {
  }

  lemma DriftKeeps(w: World, w': World)
    requires Drift(w, w')
    ensures Keeps(w, w', {}) && Loose(w') == Loose(w) && Parked(w') == Parked(w)
  {
  }

  lemma DriftTransitive(a: World, b: World, c: World)
    requires Drift(a, b) && Drift(b, c)
    ensures Drift(a, c)
  {
  }

  lemma DriftReflexive(w: World)
    ensures Drift(w, w)
  {
  }

  lemma NextIsUndelivered(w: World)
    requires ItemsOk(w) && BodiesOk(w) && w.work.delivered < w.work.lastId
    ensures w.work.delivered + 1 in Undelivered(w.work)
    ensures forall id :: id in Undelivered(w.work) ==> w.work.delivered + 1 <= id
  {
    assert Live(w, w.work.delivered + 1);
  }

  lemma ClaimantIsPod(w: World, n: string)
    requires PodsOk(w) && ClusterEnabled(w, ClaimNext(n))
    ensures n != RECLAIMER
  {
  }

  lemma ClaimKeepsLive(w: World, n: string)
    requires StreamOk(w.work) && ClusterEnabled(w, ClaimNext(n))
    ensures forall id :: Live(Apply(w, ClaimNext(n)), id) <==> Live(w, id)
  {
  }

  lemma ClaimPasses(w: World, n: string)
    requires ClusterEnabled(w, ClaimNext(n))
    ensures PodsPass(w, Apply(w, ClaimNext(n)))
    ensures forall name :: name in w.past.names && !AliveIn(w, name) ==> !AliveIn(Apply(w, ClaimNext(n)), name)
  {
  }

  lemma ClaimGrows(w: World, n: string)
    requires StreamOk(w.work) && OwnersOk(w) && ClusterEnabled(w, ClaimNext(n))
    ensures PastGrows(w, Apply(w, ClaimNext(n)))
  {
    hide Live, PodsPass, AliveIn;
    ClaimKeepsLive(w, n);
    ClaimPasses(w, n);
    assert w.work.delivered + 1 !in w.past.ran;
  }

  lemma ClaimDrifts(w: World, n: string)
    requires StreamOk(w.work) && OwnersOk(w) && n != RECLAIMER && ClusterEnabled(w, ClaimNext(n))
    ensures Drift(w, Apply(w, ClaimNext(n)))
  {
    hide Live, PastGrows, OwnersOk;
    ClaimKeepsLive(w, n);
    ClaimGrows(w, n);
  }

  lemma PodStepDrifts(w: World, l: Label)
    requires PodsOk(w) && (l.Spawn? || l.PodMoves? || l.Vanish?) && ClusterEnabled(w, l)
    ensures Drift(w, Apply(w, l))
  {
    if l.PodMoves? && !Alive(w.pods[l.name]) {
      NotAliveIsStable(w.pods[l.name], l.to);
    }
  }

  lemma ClusterStepDrifts(w: World, l: Label, max: int)
    requires Inv(w, max) && OfCluster(l) && Enabled(w, l, max)
    ensures Drift(w, Apply(w, l))
  {
    hide Drift, Apply, ClusterEnabled, StreamOk, ItemsOk, BodiesOk, SettledOk, AttemptsOk, OwnersOk, PodsOk;
    if l.ClaimNext? {
      ClaimantIsPod(w, l.name);
      ClaimDrifts(w, l.name);
    } else {
      PodStepDrifts(w, l);
    }
  }

  // The controller's guards survive the moves of pods, so checking them before a call is enough.
  lemma EnabledIsStable(w: World, w': World, l: Label, max: int)
    requires OwnersOk(w) && PodsOk(w') && Drift(w, w')
    requires !OfCluster(l) && Enabled(w, l, max)
    ensures Enabled(w', l, max)
  {
  }

  lemma ExtendRun(start: World, run: seq<Label>, l: Label, max: int)
    requires Legal(start, run, max) && Inv(Exec(start, run), max) && Enabled(Exec(start, run), l, max)
    ensures Legal(start, run + [l], max)
    ensures Exec(start, run + [l]) == Apply(Exec(start, run), l)
    ensures Inv(Exec(start, run + [l]), max)
    ensures SmoothRun(start, run) && Smooth(Exec(start, run), l) ==> SmoothRun(start, run + [l])
  {
    hide Inv, Enabled, Apply, Smooth;
    assert (run + [l])[..|run|] == run;
    StepInv(Exec(start, run), l, max);
  }

  // How the controller's own steps change what it relies on.
  function Touched(l: Label): set<nat> {
    match l
    case AckDone(id) => {id}
    case AckCovered(id) => {id}
    case Take(ids) => ids
    case _ => {}
  }

  lemma StepGrows(w: World, l: Label, max: int)
    requires StreamOk(w.work) && ItemsOk(w) && BodiesOk(w) && !OfCluster(l) && Enabled(w, l, max)
    ensures PastGrows(w, Apply(w, l))
  {
    LiveAfter(w, l, max);
    hide Live, BodiesOk, Alive;
  }

  lemma StepHolds(w: World, l: Label, max: int)
    requires StreamOk(w.work) && BodiesOk(w) && ItemsOk(w) && !OfCluster(l) && Enabled(w, l, max)
    ensures forall id :: id in w.work.pel && id !in Touched(l) ==>
              id in Apply(w, l).work.pel && Apply(w, l).work.pel[id] == w.work.pel[id]
  {
    hide Live, BodiesOk, ItemsOk;
  }

  lemma StepKeeps(w: World, l: Label, max: int)
    requires StreamOk(w.work) && ItemsOk(w) && BodiesOk(w) && !OfCluster(l) && Enabled(w, l, max)
    ensures Keeps(w, Apply(w, l), Touched(l))
  {
    hide PastGrows, StreamOk, ItemsOk, BodiesOk, Enabled;
    StepGrows(w, l, max);
    StepHolds(w, l, max);
  }

  lemma StepLoose(w: World, l: Label, max: int)
    requires StreamOk(w.work) && ItemsOk(w) && BodiesOk(w) && OwnersOk(w) && !OfCluster(l) && Enabled(w, l, max)
    ensures l.Retry? || l.DeadLetter? ==> Loose(Apply(w, l)) == Loose(w) + {l.cause}
    ensures l.AckDone? || l.AckCovered? ==> Loose(Apply(w, l)) == Loose(w) - {l.id}
    ensures l.Take? || l.Delete? ==> Loose(Apply(w, l)) == Loose(w)
  {
    LiveAfter(w, l, max);
    CoveredWasDelivered(w);
    if l.Retry? || l.DeadLetter? {
      PendingIsLive(w, l.cause);
    }
    hide Live, StreamOk, ItemsOk, BodiesOk, OwnersOk, Enabled;
  }

  lemma CoveredWasDelivered(w: World)
    requires StreamOk(w.work) && OwnersOk(w)
    ensures w.work.lastId + 1 !in w.past.covered
  {
  }

  lemma PendingIsLive(w: World, id: nat)
    requires StreamOk(w.work) && ItemsOk(w) && id in w.work.pel
    ensures Live(w, id)
  {
  }

  lemma StepParked(w: World, l: Label, max: int)
    requires StreamOk(w.work) && ItemsOk(w) && BodiesOk(w) && !OfCluster(l) && Enabled(w, l, max)
    ensures l.Take? ==> Parked(Apply(w, l)) == Parked(w) + l.ids
    ensures l.AckDone? || l.AckCovered? ==> Parked(Apply(w, l)) == Parked(w) - {l.id}
    ensures l.Retry? || l.DeadLetter? || l.Delete? ==> Parked(Apply(w, l)) == Parked(w)
  {
  }

  // The pod deletions the controller has asked for.
  class PodApi {
    ghost var deletions: seq<string>

    constructor ()
      ensures deletions == []
    {
      deletions := [];
    }

    method Delete(name: string) returns (ok: bool)
      modifies this
      ensures deletions == old(deletions) + [name]
    {
      deletions := deletions + [name];
      ok := *;
    }
  }

  class Cluster {
    const queue: Valkey
    const max: int
    var pods: map<string, Pod>
    var usedNames: set<string>
    const podApi: PodApi
    ghost const start: World
    ghost var past: History
    ghost var run: seq<Label>

    constructor (queue: Valkey, podApi: PodApi, max: int)
      requires queue.dlq == EMPTY && Fresh(queue.work) && queue.IdleOk() && 1 <= max <= 0x7FFF_FFFF
      ensures Valid() && this.queue == queue && this.podApi == podApi && this.max == max && run == []
      ensures start == Start(queue.work) == Now()
    {
      this.queue, this.podApi, this.max := queue, podApi, max;
      pods, usedNames := map[], {};
      start := Start(queue.work);
      past := Start(queue.work).past;
      run := [];
      new;
      SeededInv(start, max);
    }

    ghost function Now(): World
      reads this, queue
    {
      World(queue.work, queue.dlq, pods, past)
    }

    // The recorded run is legal and leads to the present state.
    ghost predicate Valid()
      reads this, queue
    {
      Seeded(start, max) && Legal(start, run, max) && Exec(start, run) == Now() && Inv(Now(), max)
      && usedNames == past.names && queue.IdleOk()
    }

    // No call can fail any more, and no message was given two outcomes so far.
    ghost predicate Steady()
      reads this, queue
    {
      queue.faultsLeft == 0 && SmoothRun(start, run)
    }

    lemma InvParts()
      requires Valid()
      ensures StreamOk(queue.work) && StreamOk(queue.dlq) && queue.Valid()
      ensures ItemsOk(Now()) && BodiesOk(Now()) && AttemptsOk(Now(), max) && OwnersOk(Now()) && PodsOk(Now())
    {
    }

    // The step l has just taken effect on the servers.
    ghost method Record(w: World, l: Label)
      requires Seeded(start, max) && Legal(start, run, max) && Exec(start, run) == w
      requires Inv(w, max) && Enabled(w, l, max)
      requires Now().(past := Apply(w, l).past) == Apply(w, l) && usedNames == Apply(w, l).past.names && queue.IdleOk()
      modifies this`past, this`run
      ensures Valid() && Now() == Apply(w, l) && run == old(run) + [l]
      ensures old(SmoothRun(start, run)) && Smooth(w, l) ==> SmoothRun(start, run)
    {
      hide Inv, Enabled, Apply, Smooth, Seeded, Legal, Exec, SmoothRun;
      ExtendRun(start, run, l, max);
      past := Apply(w, l).past;
      run := run + [l];
    }

    predicate MoveEnabled(l: Label)
      reads this, queue
    {
      match l
      case Spawn(n) => n !in usedNames && n != RECLAIMER
      case PodMoves(n, to) => n in pods && MayBecome(pods[n], to)
      case Vanish(n) => n in pods
      case ClaimNext(n) =>
        n in pods && pods[n].phase.PodPending? && !pods[n].claimed && queue.work.delivered < queue.work.lastId
      case _ => false
    }

    // One move of the cluster, if it is possible now.
    method Move(l: Label)
      requires Valid()
      modifies this, queue`work, queue`idle
      ensures Valid() && Drift(old(Now()), Now()) && old(run) <= run && old(queue.idle) <= queue.idle
      ensures old(Steady()) ==> Steady()
    {
      hide Inv, Seeded, Legal, Exec, SmoothRun, Drift;
      hide StreamOk, ItemsOk, BodiesOk, AttemptsOk, OwnersOk, PodsOk, MayBecome;
      InvParts();
      ghost var w := Now();
      DriftReflexive(w);
      if MoveEnabled(l) {
        ClusterStepDrifts(w, l, max);
        match l {
          case Spawn(n) => pods, usedNames := pods[n := NEW_POD], usedNames + {n};
          case PodMoves(n, to) => pods := pods[n := to];
          case Vanish(n) => pods := pods - {n};
          case ClaimNext(n) =>
            NextIsUndelivered(w);
            var message := queue.ReadGroupNew(n);
            pods := pods[n := pods[n].(claimed := true)];
          case _ =>
        }
        Record(w, l);
      }
    }

    // Any number of moves of the cluster.
    method Interfere()
      requires Valid()
      modifies this, queue`work, queue`idle
      ensures Valid() && Drift(old(Now()), Now()) && old(run) <= run && old(queue.idle) <= queue.idle
      ensures old(Steady()) ==> Steady()
    {
      hide Inv, Seeded, Legal, Exec, SmoothRun, Drift;
      DriftReflexive(Now());
      var n: nat := *;
      while n > 0
        invariant Valid() && Drift(old(Now()), Now()) && old(run) <= run && old(queue.idle) <= queue.idle
        invariant queue.faultsLeft == old(queue.faultsLeft)
        invariant old(Steady()) ==> Steady()
      {
        ghost var before := Now();
        var l: Label := *;
        Move(l);
        DriftTransitive(old(Now()), before, Now());
        queue.Tick();
        n := n - 1;
      }
    }

    // ------------------------------------------------------------ calls that only look

    method ListPods() returns (ok: bool, list: map<string, Pod>)
      requires Valid()
      modifies this, queue
      ensures Valid() && Drift(old(Now()), Now()) && old(run) <= run && old(queue.idle) <= queue.idle
      ensures old(Steady()) ==> Steady() && ok
      ensures queue.faultsLeft <= old(queue.faultsLeft)
      ensures ok ==> list == Now().pods
    {
      hide Inv, Seeded, Legal, Exec, SmoothRun, Drift;
      Interfere();
      var outcome := queue.Call();
      ok := outcome.Replied?;
      list := pods;
    }

    method GetPendingForConsumer(consumer: string, count: int) returns (ok: bool, ids: seq<nat>)
      requires Valid()
      modifies this, queue
      ensures Valid() && Drift(old(Now()), Now()) && old(run) <= run && old(queue.idle) <= queue.idle
      ensures old(Steady()) ==> Steady() && ok
      ensures queue.faultsLeft <= old(queue.faultsLeft)
      ensures ok ==> Least(ids, OwnedBy(Now().work, consumer), if count <= 0 then 10 else count)
    {
      hide Inv, Seeded, Legal, Exec, SmoothRun, Drift, Least;
      Interfere();
      InvParts();
      ok, ids := queue.GetPendingForConsumer(consumer, count);
    }

    method GetPendingEntryDetails(count: int) returns (ok: bool, pending: seq<PendingEntry>)
      requires Valid()
      modifies this, queue
      ensures Valid() && Drift(old(Now()), Now()) && old(run) <= run && old(queue.idle) <= queue.idle
      ensures old(Steady()) ==> Steady() && ok
      ensures queue.faultsLeft <= old(queue.faultsLeft)
      ensures ok ==> Least(PendingIds(pending), queue.Stale(), if count <= 0 then 100 else count)
      ensures ok ==> forall i :: 0 <= i < |pending| ==>
                pending[i].id in Now().work.pel && pending[i].consumer == Now().work.pel[pending[i].id]
    {
      hide Inv, Seeded, Legal, Exec, SmoothRun, Drift, Least;
      Interfere();
      InvParts();
      ok, pending := queue.GetPendingEntryDetails(count);
    }

    method ReadMessage(id: nat) returns (ok: bool, messages: seq<Message>)
      requires Valid()
      modifies this, queue
      ensures Valid() && Drift(old(Now()), Now()) && old(run) <= run && old(queue.idle) <= queue.idle
      ensures old(Steady()) ==> Steady() && ok
      ensures queue.faultsLeft <= old(queue.faultsLeft)
      ensures ok ==> messages == if id in Now().work.entries then [Message(id, Now().work.entries[id])] else []
    {
      hide Inv, Seeded, Legal, Exec, SmoothRun, Drift;
      Interfere();
      InvParts();
      ok, messages := queue.ReadRange(WorkKey, At(id), At(id), 1);
      if ok {
        assert messages != [] ==> Ids(messages)[0] in Ids(messages);
        assert InRange(queue.work, At(id), At(id)) == if id in queue.work.entries then {id} else {};
      }
    }

    method GetConsumerGroupLag() returns (ok: bool, lag: nat)
      requires Valid()
      modifies this, queue
      ensures Valid() && Drift(old(Now()), Now()) && old(run) <= run && old(queue.idle) <= queue.idle
      ensures old(Steady()) ==> Steady() && ok
      ensures queue.faultsLeft <= old(queue.faultsLeft)
      ensures lag == if ok then Lag(Now().work) else 0
    {
      hide Inv, Seeded, Legal, Exec, SmoothRun, Drift;
      Interfere();
      ok, lag := queue.GetConsumerGroupLag();
    }

    method GetPendingCount() returns (ok: bool, count: nat)
      requires Valid()
      modifies this, queue
      ensures Valid() && Drift(old(Now()), Now()) && old(run) <= run && old(queue.idle) <= queue.idle
      ensures old(Steady()) ==> Steady() && ok
      ensures queue.faultsLeft <= old(queue.faultsLeft)
      ensures count == if ok then |Now().work.pel| else 0
    {
      hide Inv, Seeded, Legal, Exec, SmoothRun, Drift;
      Interfere();
      ok, count := queue.GetPendingCount();
    }

    method GetDlqLength() returns (ok: bool, length: nat)
      requires Valid()
      modifies this, queue
      ensures Valid() && Drift(old(Now()), Now()) && old(run) <= run && old(queue.idle) <= queue.idle
      ensures old(Steady()) ==> Steady() && ok
      ensures queue.faultsLeft <= old(queue.faultsLeft)
      ensures length == if ok then |Now().dlq.entries| else 0
    {
      hide Inv, Seeded, Legal, Exec, SmoothRun, Drift;
      Interfere();
      ok, length := queue.GetStreamLength(DlqKey);
    }

    // ------------------------------------------------------------ calls that change the queue

    // The cluster moves on; the guard of the call about to be made survives.
    method Prepare(ghost l: Label)
      requires Valid() && !OfCluster(l) && Enabled(Now(), l, max)
      modifies this, queue`work, queue`idle
      ensures Valid() && queue.Valid() && Enabled(Now(), l, max) && old(run) <= run && old(queue.idle) <= queue.idle
      ensures Keeps(old(Now()), Now(), {})
      ensures Now().past.items == old(Now()).past.items && Now().past.covered == old(Now()).past.covered
      ensures Loose(Now()) == old(Loose(Now())) && Parked(Now()) == old(Parked(Now()))
      ensures old(Steady()) ==> Steady()
      ensures queue.faultsLeft == old(queue.faultsLeft)
    {
      hide Inv, Seeded, Legal, Exec, SmoothRun, Drift, Keeps, Loose, Parked, Enabled;
      ghost var first := Now();
      InvParts();
      Interfere();
      InvParts();
      EnabledIsStable(first, Now(), l, max);
      DriftKeeps(first, Now());
      DriftItems(first, Now());
    }

    // The call took effect.
    ghost method Commit(w: World, l: Label)
      requires Seeded(start, max) && Legal(start, run, max) && Exec(start, run) == w && Inv(w, max)
      requires !OfCluster(l) && Enabled(w, l, max)
      requires Now().(past := Apply(w, l).past) == Apply(w, l) && usedNames == Apply(w, l).past.names && queue.IdleOk()
      modifies this`past, this`run
      ensures Valid() && Now() == Apply(w, l) && run == old(run) + [l]
      ensures old(SmoothRun(start, run)) && Smooth(w, l) ==> SmoothRun(start, run)
      ensures Keeps(w, Now(), Touched(l))
      ensures l.Retry? || l.DeadLetter? ==> Loose(Now()) == Loose(w) + {l.cause} && Parked(Now()) == Parked(w)
      ensures l.AckDone? || l.AckCovered? ==> Loose(Now()) == Loose(w) - {l.id} && Parked(Now()) == Parked(w) - {l.id}
      ensures l.Take? ==> Loose(Now()) == Loose(w) && Parked(Now()) == Parked(w) + l.ids
      ensures l.Delete? ==> Loose(Now()) == Loose(w) && Parked(Now()) == Parked(w)
    {
      hide Seeded, Legal, Exec, SmoothRun, Keeps, Loose, Parked, Enabled, Apply, Smooth, AttemptsOk, SettledOk, PodsOk;
      StepKeeps(w, l, max);
      StepLoose(w, l, max);
      StepParked(w, l, max);
      Record(w, l);
    }

    // Writes the retry of a pending message, or its dead letter.
    method Write(ghost l: Label, retry: bool, file: string, attempts: int) returns (ok: bool)
      requires Valid() && Enabled(Now(), l, max)
      requires if retry then l.Retry? else l.DeadLetter?
      requires file == Now().past.items[l.cause].file && attempts == Now().past.items[l.cause].attempts + 1
      modifies this, queue
      ensures Valid() && Keeps(old(Now()), Now(), {}) && old(run) <= run && old(queue.idle) <= queue.idle
      ensures Loose(Now()) <= old(Loose(Now())) + {l.cause} && Parked(Now()) == old(Parked(Now()))
      ensures queue.faultsLeft <= old(queue.faultsLeft)
      ensures ok ==> l.cause in Now().past.covered
      ensures old(Steady()) && l.cause !in old(Now()).past.covered ==> Steady() && ok
    {
      hide Inv, Seeded, Legal, Exec, SmoothRun, Keeps, Loose, Parked, StreamOk;
      ghost var first := Now();
      Prepare(l);
      ghost var w := Now();
      if retry {
        ok := queue.EnqueueFileWithAttempts(file, attempts);
      } else {
        ok := queue.AddToDLQ(file, attempts);
      }
      if queue.work != w.work || queue.dlq != w.dlq {
        Commit(w, l);
        KeepsTransitive(first, w, Now(), {});
      }
    }

    method Ack(id: nat, ghost l: Label) returns (ok: bool)
      requires Valid() && Enabled(Now(), l, max) && (l == AckDone(id) || l == AckCovered(id))
      modifies this, queue
      ensures Valid() && Keeps(old(Now()), Now(), {id}) && old(run) <= run && old(queue.idle) <= queue.idle
      ensures Loose(Now()) <= old(Loose(Now())) && Parked(Now()) <= old(Parked(Now()))
      ensures queue.faultsLeft <= old(queue.faultsLeft)
      ensures ok ==> id !in Now().work.pel && id !in Loose(Now()) && id !in Parked(Now())
      ensures id <= Now().work.delivered
      ensures ok && l.AckDone? ==> id in Now().past.done
      ensures old(Steady()) && (l.AckDone? ==> id !in old(Now()).past.covered) ==> Steady() && ok
    {
      hide Inv, Seeded, Legal, Exec, SmoothRun, Keeps, Loose, Parked, StreamOk;
      ghost var first := Now();
      Prepare(l);
      ghost var w := Now();
      KeepsWeaker(first, w, {}, {id});
      PendingIsDelivered(w.work, id);
      ok := queue.AckMessage(id);
      if queue.work != w.work {
        Commit(w, l);
        KeepsTransitive(first, w, Now(), {id});
      }
    }

    method DeleteMessage(id: nat) returns (ok: bool)
      requires Valid() && Enabled(Now(), Delete(id), max)
      modifies this, queue
      ensures Valid() && Keeps(old(Now()), Now(), {}) && old(run) <= run && old(queue.idle) <= queue.idle
      ensures Loose(Now()) == old(Loose(Now())) && Parked(Now()) == old(Parked(Now()))
      ensures queue.faultsLeft <= old(queue.faultsLeft)
      ensures ok ==> id !in Now().work.entries
      ensures old(Steady()) ==> Steady() && ok
    {
      hide Inv, Seeded, Legal, Exec, SmoothRun, Keeps, Loose, Parked, StreamOk;
      ghost var first := Now();
      Prepare(Delete(id));
      ghost var w := Now();
      ok := queue.DeleteMessages(WorkKey, [id]);
      if queue.work != w.work {
        assert (set x | x in [id]) == {id};
        Commit(w, Delete(id));
        KeepsTransitive(first, w, Now(), {});
      }
    }

    method ClaimMessages(ids: seq<nat>) returns (ok: bool, messages: seq<Message>, ghost taken: set<nat>)
      requires Valid() && Ascending(ids)
      requires Enabled(Now(), Take(set id | id in ids), max)
      modifies this, queue
      ensures Valid() && Keeps(old(Now()), Now(), taken) && old(run) <= run
      ensures Loose(Now()) == old(Loose(Now())) && Parked(Now()) == old(Parked(Now())) + taken
      ensures queue.faultsLeft <= old(queue.faultsLeft)
      ensures taken <= set id | id in ids
      ensures ok ==> forall id :: id in ids && id in old(queue.idle) ==> id in taken
      ensures ok ==> Ascending(Ids(messages)) && FromStream(messages, Now().work)
      ensures ok ==> forall id :: id in Ids(messages) <==> id in taken
      ensures old(Steady()) ==> Steady() && ok
    {
      hide Inv, Seeded, Legal, Exec, SmoothRun, Keeps, Loose, Parked, StreamOk, Ascending, FromStream;
      ghost var first := Now();
      Prepare(Take(set id | id in ids));
      ghost var w := Now();
      PendingHaveBodies();
      ok, messages, taken := queue.ClaimMessages(RECLAIMER, ids);
      Commit(w, Take(taken));
      KeepsWeaker(first, w, {}, taken);
      KeepsTransitive(first, w, Now(), taken);
    }

    lemma PendingHaveBodies()
      requires Valid()
      ensures forall id :: id in queue.work.pel ==> id in queue.work.entries
    {
      forall id | id in queue.work.pel ensures id in queue.work.entries {
        assert Live(Now(), id);
      }
    }

    // Deleting the pod is one of the moves a cluster may make; the call may also fail.
    method DeletePod(name: string)
      requires Valid()
      modifies this, queue`work, queue`idle, podApi
      ensures Valid() && Drift(old(Now()), Now()) && old(run) <= run && old(queue.idle) <= queue.idle
      ensures old(Steady()) ==> Steady()
      ensures queue.faultsLeft == old(queue.faultsLeft)
      ensures podApi.deletions == old(podApi.deletions) + [name]
    {
      hide Inv, Seeded, Legal, Exec, SmoothRun, Drift;
      Interfere();
      ghost var (first, w) := (old(Now()), Now());
      var ok := podApi.Delete(name);
      if ok {
        Move(Vanish(name));
        DriftTransitive(first, w, Now());
      }
    }
  }
}
