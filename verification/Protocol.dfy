/** The batch work queue as a transition system: pods move between any two calls of the controller,
    and every call that takes effect is one step. */
module Protocol {
  import opened Decimal
  import opened Streams
  import opened Pods

  const RECLAIMER: string := "controller-reclaimer"

  datatype Item = Item(file: string, attempts: nat)

  // What has happened so far; the servers keep none of it.
  datatype History = History(
    items: map<nat, Item>,       // every work message ever added
    ran: map<nat, string>,       // delivered message to the pod it was delivered to
    names: set<string>,          // pod names ever used
    finished: set<string>,       // pods that reached Succeeded
    faulted: set<string>,        // pods that ever showed a failure
    covered: set<nat>,           // messages whose retry or dead letter has been written
    done: set<nat>,              // messages acknowledged as successful
    writeOffs: multiset<string>) // one file per retry or dead letter written

  datatype World = World(work: Stream, dlq: Stream, pods: map<string, Pod>, past: History)

  datatype Label =
    // the cluster
    | Spawn(name: string)
    | PodMoves(name: string, to: Pod)
    | Vanish(name: string)
    | ClaimNext(name: string)
    // the controller, one per queue call
    | Retry(cause: nat)
    | DeadLetter(cause: nat)
    | AckDone(id: nat)
    | AckCovered(id: nat)
    | Take(ids: set<nat>)
    | Delete(id: nat)

  predicate OfCluster(l: Label) {
    l.Spawn? || l.PodMoves? || l.Vanish? || l.ClaimNext?
  }

  ghost predicate AliveIn(w: World, name: string) {
    name in w.pods && Alive(w.pods[name])
  }

  predicate ClusterEnabled(w: World, l: Label) {
    match l
    case Spawn(n) => n !in w.past.names && n != RECLAIMER
    case PodMoves(n, to) => n in w.pods && MayBecome(w.pods[n], to)
    case Vanish(n) => n in w.pods
    case ClaimNext(n) =>
      n in w.pods && w.pods[n].phase.PodPending? && !w.pods[n].claimed && w.work.delivered < w.work.lastId
    case _ => false
  }

  // The discipline of the controller: what must hold at the moment a call takes effect.
  ghost predicate Enabled(w: World, l: Label, max: int) {
    var (s, h) := (w.work, w.past);
    if OfCluster(l) then ClusterEnabled(w, l)
    else
      match l
      case Retry(id) => id in s.pel && id in h.items && WrittenOff(w, id) && h.items[id].attempts + 1 < max
      case DeadLetter(id) => id in s.pel && id in h.items && WrittenOff(w, id) && h.items[id].attempts + 1 >= max
      case AckDone(id) => id in s.pel && id in h.ran && h.ran[id] in h.finished
      case AckCovered(id) => id in s.pel && id in h.covered
      case Take(ids) => forall id :: id in ids ==> id in s.pel && !AliveIn(w, s.pel[id])
      case Delete(id) => id <= s.delivered && id !in s.pel
  }

  // Grounds for giving up on the execution of a pending message.
  ghost predicate WrittenOff(w: World, id: nat)
    requires id in w.work.pel
  {
    w.work.pel[id] == RECLAIMER || w.work.pel[id] in w.past.faulted
  }

  function Apply(w: World, l: Label): World {
    var (s, h) := (w.work, w.past);
    match l
    case Spawn(n) => w.(pods := w.pods[n := NEW_POD], past := h.(names := h.names + {n}))
    case PodMoves(n, to) =>
      w.(pods := w.pods[n := to],
         past := h.(finished := if to.phase.PodSucceeded? then h.finished + {n} else h.finished,
                    faulted := if ShowsFailure(to) then h.faulted + {n} else h.faulted))
    case Vanish(n) => w.(pods := w.pods - {n})
    case ClaimNext(n) =>
      var id := s.delivered + 1;
      w.(work := Deliver(s, id, n),
         pods := if n in w.pods then w.pods[n := w.pods[n].(claimed := true)] else w.pods,
         past := h.(ran := h.ran[id := n]))
    case Retry(id) =>
      if id !in h.items then w
      else
        var next := Item(h.items[id].file, h.items[id].attempts + 1);
        w.(work := XAdd(s, Body(next.file, Itoa(next.attempts))),
           past := h.(items := h.items[s.lastId + 1 := next],
                      covered := h.covered + {id},
                      writeOffs := h.writeOffs + multiset{next.file}))
    case DeadLetter(id) =>
      if id !in h.items then w
      else
        var item := h.items[id];
        w.(dlq := XAdd(w.dlq, Body(item.file, Itoa(item.attempts + 1))),
           past := h.(covered := h.covered + {id},
                      writeOffs := h.writeOffs + multiset{item.file}))
    case AckDone(id) => w.(work := XAck(s, id), past := h.(done := h.done + {id}))
    case AckCovered(id) => w.(work := XAck(s, id))
    case Take(ids) => w.(work := XClaim(s, ids, RECLAIMER))
    case Delete(id) => w.(work := XDel(s, {id}))
  }

  // A run is the sequence of steps taken from a start.
  function Exec(w: World, run: seq<Label>): World {
    if run == [] then w else Apply(Exec(w, run[..|run| - 1]), run[|run| - 1])
  }

  ghost predicate Legal(w: World, run: seq<Label>, max: int) {
    run != [] ==> Legal(w, run[..|run| - 1], max) && Enabled(Exec(w, run[..|run| - 1]), run[|run| - 1], max)
  }

  // ---------------------------------------------------------------- invariants

  // Messages are numbered without gaps, and a body in the stream is the message that was added.
  ghost predicate ItemsOk(w: World) {
    && (forall id :: id in w.past.items <==> 1 <= id <= w.work.lastId)
    && (forall id :: id in w.work.entries && id in w.past.items ==>
          w.work.entries[id] == Body(w.past.items[id].file, Itoa(w.past.items[id].attempts)))
  }

  predicate Live(w: World, id: nat) {
    id in w.past.items && (id > w.work.delivered || id in w.work.pel)
  }

  // Every undelivered or pending message still has its body.
  ghost predicate BodiesOk(w: World) {
    forall id :: Live(w, id) ==> id in w.work.entries
  }

  // A message leaves the pending list only as a success or after its retry or dead letter was written.
  ghost predicate SettledOk(w: World) {
    forall id :: id in w.past.items && !Live(w, id) ==> id in w.past.done || id in w.past.covered
  }

  ghost predicate AttemptsOk(w: World, max: int) {
    && 1 <= max <= 0x7FFF_FFFF
    && (forall id :: id in w.past.items ==> w.past.items[id].attempts < max)
    && (forall d :: d in w.dlq.entries ==> w.dlq.entries[d].attempts == Itoa(max))
  }

  ghost predicate OwnersOk(w: World) {
    var (s, h) := (w.work, w.past);
    && (forall id :: id in h.ran <==> 1 <= id <= s.delivered)
    && (forall id :: id in s.pel ==> id in h.ran && (s.pel[id] == RECLAIMER || s.pel[id] == h.ran[id]))
    && (forall i, j :: i in h.ran && j in h.ran && h.ran[i] == h.ran[j] ==> i == j)
    && (forall id :: id in h.ran ==> h.ran[id] in h.names)
    && (forall id :: id in h.ran && h.ran[id] in w.pods ==> w.pods[h.ran[id]].claimed)
    && (forall id :: id in h.covered ==> id in h.ran)
    && (forall id :: id in h.done ==> id in h.ran && h.ran[id] in h.finished && id !in s.pel)
  }

  ghost predicate PodsOk(w: World) {
    var h := w.past;
    && RECLAIMER !in h.names
    && (forall n :: n in w.pods ==> n in h.names)
    && (forall n :: n in w.pods && w.pods[n].phase.PodSucceeded? ==> n in h.finished)
    && (forall n :: n in h.finished ==> n in h.names && (n in w.pods ==> w.pods[n].phase.PodSucceeded?))
    && (forall n :: n in w.pods && ShowsFailure(w.pods[n]) ==> n in h.faulted)
  }

  ghost predicate Inv(w: World, max: int) {
    && StreamOk(w.work) && StreamOk(w.dlq)
    && ItemsOk(w) && BodiesOk(w) && SettledOk(w) && AttemptsOk(w, max) && OwnersOk(w) && PodsOk(w)
  }

  // The world right after seeding: nothing delivered, nothing dead, no pods.
  ghost predicate Seeded(w: World, max: int) {
    && 1 <= max <= 0x7FFF_FFFF
    && w == Start(w.work)
    && Fresh(w.work)
  }

  // A stream of first attempts that no consumer has touched.
  ghost predicate Fresh(s: Stream) {
    && s.delivered == 0 && s.pel == map[]
    && (forall id :: id in s.entries <==> 1 <= id <= s.lastId)
    && (forall id :: id in s.entries ==> s.entries[id].attempts == Itoa(0))
  }

  function Start(work: Stream): World {
    var items := map id | id in work.entries :: Item(work.entries[id].file, 0);
    World(work, EMPTY, map[], History(items, map[], {}, {}, {}, {}, {}, multiset{}))
  }

  lemma SeededInv(w: World, max: int)
    requires Seeded(w, max)
    ensures Inv(w, max)
  {
  }

  lemma LiveAfter(w: World, l: Label, max: int)
    requires StreamOk(w.work) && ItemsOk(w) && BodiesOk(w) && Enabled(w, l, max)
    ensures forall id :: Live(Apply(w, l), id) <==>
              (Live(w, id) && !((l.AckDone? || l.AckCovered?) && id == l.id)) ||
              (l.Retry? && id == w.work.lastId + 1)
  {
  }

  lemma BaseKept(w: World, l: Label, max: int)
    requires StreamOk(w.work) && StreamOk(w.dlq) && ItemsOk(w) && Enabled(w, l, max)
    ensures var w' := Apply(w, l); StreamOk(w'.work) && StreamOk(w'.dlq) && ItemsOk(w')
  {
  }

  lemma AttemptsKept(w: World, l: Label, max: int)
    requires ItemsOk(w) && AttemptsOk(w, max) && Enabled(w, l, max)
    ensures AttemptsOk(Apply(w, l), max)
  {
  }

  lemma OwnersKeptByClaim(w: World, n: string)
    requires StreamOk(w.work) && OwnersOk(w) && PodsOk(w) && ClusterEnabled(w, ClaimNext(n))
    ensures OwnersOk(Apply(w, ClaimNext(n)))
  {
    assert w.work.delivered + 1 !in w.past.ran;
  }

  lemma OwnersKept(w: World, l: Label, max: int)
    requires StreamOk(w.work) && ItemsOk(w) && OwnersOk(w) && PodsOk(w) && Enabled(w, l, max)
    ensures OwnersOk(Apply(w, l))
  {
    if l.ClaimNext? {
      OwnersKeptByClaim(w, l.name);
    }
  }

  lemma PodsKept(w: World, l: Label, max: int)
    requires PodsOk(w) && Enabled(w, l, max)
    ensures PodsOk(Apply(w, l))
  {
  }

  lemma BodiesKept(w: World, l: Label, max: int)
    requires StreamOk(w.work) && ItemsOk(w) && BodiesOk(w) && Enabled(w, l, max)
    ensures BodiesOk(Apply(w, l))
  {
    LiveAfter(w, l, max);
  }

  lemma SettledKept(w: World, l: Label, max: int)
    requires StreamOk(w.work) && ItemsOk(w) && BodiesOk(w) && SettledOk(w) && Enabled(w, l, max)
    ensures SettledOk(Apply(w, l))
  {
    LiveAfter(w, l, max);
  }

  /** Every step of the protocol keeps the whole invariant. */
  lemma StepInv(w: World, l: Label, max: int)
    requires Inv(w, max) && Enabled(w, l, max)
    ensures Inv(Apply(w, l), max)
  {
    BaseKept(w, l, max);
    AttemptsKept(w, l, max);
    OwnersKept(w, l, max);
    PodsKept(w, l, max);
    BodiesKept(w, l, max);
    SettledKept(w, l, max);
  }

  /** The invariant holds in every reachable state. */
  lemma {:induction false} RunInv(w: World, run: seq<Label>, max: int)
    requires Inv(w, max) && Legal(w, run, max)
    ensures Inv(Exec(w, run), max)
  {
    if run != [] {
      RunInv(w, run[..|run| - 1], max);
      StepInv(Exec(w, run[..|run| - 1]), run[|run| - 1], max);
    }
  }

  lemma {:induction false} LegalPrefix(w: World, run: seq<Label>, max: int, k: nat)
    requires Legal(w, run, max) && k <= |run|
    ensures Legal(w, run[..k], max)
  {
    if k < |run| {
      LegalPrefix(w, run[..|run| - 1], max, k);
      assert run[..|run| - 1][..k] == run[..k];
    } else {
      assert run[..k] == run;
    }
  }

  // The k-th step of a legal run: its guard held, and it led to the next state.
  lemma RunStep(w: World, run: seq<Label>, max: int, k: nat)
    requires Legal(w, run, max) && k < |run|
    ensures Legal(w, run[..k], max) && Enabled(Exec(w, run[..k]), run[k], max)
    ensures Exec(w, run[..k + 1]) == Apply(Exec(w, run[..k]), run[k])
  {
    LegalPrefix(w, run, max, k + 1);
    assert run[..k + 1][..k] == run[..k];
  }
}
