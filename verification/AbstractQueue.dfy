/** What the work stream, its cursor, its pending list and the dead letter stream amount to: a FIFO of
    tickets, a table of tickets in execution, the tickets that succeeded, and the dead letters. */
module AbstractQueue {
  import opened Decimal
  import opened Streams
  import opened Protocol

  datatype Ticket = Ticket(id: nat, item: Item)

  // `settled`: the retry or the dead letter of this execution has been filed.
  datatype Execution = Execution(owner: string, item: Item, settled: bool)

  datatype Queue = Queue(queued: seq<Ticket>, running: map<nat, Execution>, done: set<nat>, dead: map<nat, Body>)

  datatype Action =
    | Start(pod: string)
    | Requeue(id: nat, next: nat)
    | Bury(id: nat, grave: nat, letter: Body)
    | Succeed(id: nat)
    | Forget(id: nat)
    | Reassign(ids: set<nat>)
    | Stutter

  // An execution is requeued while attempts are left, and buried, with a letter that says `max`, when none is.
  ghost predicate Step(q: Queue, a: Action, q': Queue, max: int) {
    match a
    case Start(pod) =>
      && q.queued != [] && q.queued[0].id !in q.running
      && q' == q.(queued := q.queued[1..],
                  running := q.running[q.queued[0].id := Execution(pod, q.queued[0].item, false)])
    case Requeue(id, next) =>
      && id in q.running && q.running[id].item.attempts + 1 < max
      && (forall t :: t in q.queued ==> t.id < next) && next !in q.running
      && q' == q.(queued := q.queued + [Ticket(next, Item(q.running[id].item.file, q.running[id].item.attempts + 1))],
                  running := q.running[id := q.running[id].(settled := true)])
    case Bury(id, grave, letter) =>
      && id in q.running && q.running[id].item.attempts + 1 >= max
      && grave !in q.dead && letter == Body(q.running[id].item.file, Itoa(max))
      && q' == q.(dead := q.dead[grave := letter], running := q.running[id := q.running[id].(settled := true)])
    case Succeed(id) =>
      && id in q.running && id !in q.done
      && q' == q.(running := q.running - {id}, done := q.done + {id})
    case Forget(id) =>
      && id in q.running && q.running[id].settled
      && q' == q.(running := q.running - {id})
    case Reassign(ids) =>
      && ids <= q.running.Keys
      && q' == q.(running := map id | id in q.running ::
                    if id in ids then q.running[id].(owner := RECLAIMER) else q.running[id])
    case Stutter => q' == q
  }

  function Tickets(w: World): seq<Ticket>
    requires StreamOk(w.work) && ItemsOk(w)
  {
    seq(w.work.lastId - w.work.delivered, i requires 0 <= i < w.work.lastId - w.work.delivered =>
      Ticket(w.work.delivered + 1 + i, w.past.items[w.work.delivered + 1 + i]))
  }

  function Executions(w: World): map<nat, Execution>
    requires StreamOk(w.work) && ItemsOk(w)
  {
    map id | id in w.work.pel :: Execution(w.work.pel[id], w.past.items[id], id in w.past.covered)
  }

  function Alpha(w: World): Queue
    requires StreamOk(w.work) && ItemsOk(w)
  {
    Queue(Tickets(w), Executions(w), w.past.done, w.dlq.entries)
  }

  // The abstract action a step of the protocol performs.
  function ActionOf(w: World, l: Label): Action {
    match l
    case ClaimNext(n) => Start(n)
    case Retry(id) => Requeue(id, w.work.lastId + 1)
    case DeadLetter(id) =>
      Bury(id, w.dlq.lastId + 1, if id in w.past.items then Apply(w, l).dlq.entries[w.dlq.lastId + 1] else Body("", ""))
    case AckDone(id) => Succeed(id)
    case AckCovered(id) => Forget(id)
    case Take(ids) => Reassign(ids)
    case _ => Stutter
  }

  // What of the invariant the abstraction rests on.
  ghost predicate Abstractable(w: World) {
    && StreamOk(w.work) && StreamOk(w.dlq) && ItemsOk(w)
    && (forall id :: id in w.past.covered ==> id <= w.work.delivered)
    && (forall id :: id in w.past.done ==> id !in w.work.pel)
    && PendingHaveBodies(w)
  }

  ghost predicate PendingHaveBodies(w: World) {
    forall id :: id in w.work.pel ==> id in w.work.entries
  }

  lemma InvAbstractable(w: World, max: int)
    requires Inv(w, max)
    ensures Abstractable(w)
  {
    forall id | id in w.work.pel ensures id in w.work.entries {
      assert Live(w, id);
    }
  }

  ghost predicate Refines(w: World, l: Label, max: int) {
    && StreamOk(w.work) && ItemsOk(w)
    && StreamOk(Apply(w, l).work) && ItemsOk(Apply(w, l))
    && Step(Alpha(w), ActionOf(w, l), Alpha(Apply(w, l)), max)
  }

  lemma AbstractableBase(w: World)
    requires Abstractable(w)
    ensures StreamOk(w.work) && ItemsOk(w)
    ensures forall id :: id in w.past.covered ==> id <= w.work.delivered
  {
  }

  lemma TicketsAfterRetry(w: World, id: nat, max: int)
    requires StreamOk(w.work) && ItemsOk(w) && Enabled(w, Retry(id), max)
    requires StreamOk(Apply(w, Retry(id)).work) && ItemsOk(Apply(w, Retry(id)))
    ensures Tickets(Apply(w, Retry(id))) ==
              Tickets(w) + [Ticket(w.work.lastId + 1, Item(w.past.items[id].file, w.past.items[id].attempts + 1))]
  {
  }

  lemma TicketsAfterClaim(w: World, n: string, max: int)
    requires Abstractable(w) && Enabled(w, ClaimNext(n), max)
    requires StreamOk(Apply(w, ClaimNext(n)).work) && ItemsOk(Apply(w, ClaimNext(n)))
    ensures Tickets(w) != [] && Tickets(Apply(w, ClaimNext(n))) == Tickets(w)[1..]
    ensures Tickets(w)[0].id == w.work.delivered + 1 && Tickets(w)[0].item == w.past.items[w.work.delivered + 1]
  {
  }

  lemma TicketsAfter(w: World, l: Label, max: int)
    requires Abstractable(w) && Enabled(w, l, max) && !l.Retry? && !l.ClaimNext?
    requires StreamOk(Apply(w, l).work) && ItemsOk(Apply(w, l))
    ensures Tickets(Apply(w, l)) == Tickets(w)
  {
  }

  lemma ExecutionsAfterClaim(w: World, n: string, max: int)
    requires StreamOk(w.work) && ItemsOk(w) && Enabled(w, ClaimNext(n), max)
    requires forall id :: id in w.past.covered ==> id <= w.work.delivered
    requires StreamOk(Apply(w, ClaimNext(n)).work) && ItemsOk(Apply(w, ClaimNext(n)))
    ensures var id := w.work.delivered + 1;
      && id in w.past.items && id !in Executions(w)
      && Executions(Apply(w, ClaimNext(n))) == Executions(w)[id := Execution(n, w.past.items[id], false)]
  {
    assert w.work.delivered + 1 !in w.past.covered;
  }

  lemma ExecutionsAfterRetry(w: World, id: nat, max: int)
    requires StreamOk(w.work) && ItemsOk(w) && Enabled(w, Retry(id), max)
    requires StreamOk(Apply(w, Retry(id)).work) && ItemsOk(Apply(w, Retry(id)))
    ensures id in w.past.items && id in Executions(w) && w.work.lastId + 1 !in Executions(w)
    ensures Executions(Apply(w, Retry(id))) == Executions(w)[id := Executions(w)[id].(settled := true)]
    ensures Executions(w)[id].item == w.past.items[id]
  {
  }

  lemma TicketIds(w: World)
    requires StreamOk(w.work) && ItemsOk(w)
    ensures forall t :: t in Tickets(w) ==> t.id <= w.work.lastId
  {
  }

  lemma AttemptsAllow(w: World, id: nat, max: int)
    requires Enabled(w, Retry(id), max) || (Enabled(w, DeadLetter(id), max) && AttemptsOk(w, max))
    ensures id in w.past.items
    ensures Enabled(w, Retry(id), max) ==> w.past.items[id].attempts + 1 < max
    ensures Enabled(w, DeadLetter(id), max) && AttemptsOk(w, max) ==> w.past.items[id].attempts + 1 == max
  {
  }

  lemma RetryRefines(w: World, id: nat, max: int)
    requires Abstractable(w) && Enabled(w, Retry(id), max)
    requires StreamOk(Apply(w, Retry(id)).work) && ItemsOk(Apply(w, Retry(id)))
    ensures Refines(w, Retry(id), max)
  {
    hide Tickets, Executions, Enabled, Abstractable, ItemsOk;
    AbstractableBase(w);
    AttemptsAllow(w, id, max);
    TicketsAfterRetry(w, id, max);
    ExecutionsAfterRetry(w, id, max);
    TicketIds(w);
  }

  lemma ExecutionsAfterDeadLetter(w: World, id: nat, max: int)
    requires StreamOk(w.work) && ItemsOk(w) && Enabled(w, DeadLetter(id), max)
    requires StreamOk(Apply(w, DeadLetter(id)).work) && ItemsOk(Apply(w, DeadLetter(id)))
    ensures id in w.past.items && id in Executions(w) && Executions(w)[id].item == w.past.items[id]
    ensures Executions(Apply(w, DeadLetter(id))) == Executions(w)[id := Executions(w)[id].(settled := true)]
  {
  }

  lemma DeadLetterRefines(w: World, id: nat, max: int)
    requires Abstractable(w) && AttemptsOk(w, max) && Enabled(w, DeadLetter(id), max)
    requires StreamOk(Apply(w, DeadLetter(id)).work) && ItemsOk(Apply(w, DeadLetter(id)))
    ensures Refines(w, DeadLetter(id), max)
  {
    hide Tickets, Executions, Enabled, ItemsOk;
    AbstractableBase(w);
    AttemptsAllow(w, id, max);
    TicketsAfter(w, DeadLetter(id), max);
    ExecutionsAfterDeadLetter(w, id, max);
  }

  lemma ClaimRefines(w: World, n: string, max: int)
    requires Abstractable(w) && Enabled(w, ClaimNext(n), max)
    requires StreamOk(Apply(w, ClaimNext(n)).work) && ItemsOk(Apply(w, ClaimNext(n)))
    ensures Refines(w, ClaimNext(n), max)
  {
    hide Tickets, Executions, Enabled, Abstractable, ItemsOk;
    AbstractableBase(w);
    TicketsAfterClaim(w, n, max);
    ExecutionsAfterClaim(w, n, max);
  }

  lemma ExecutionsAfterAck(w: World, l: Label, max: int)
    requires StreamOk(w.work) && ItemsOk(w) && Enabled(w, l, max) && (l.AckDone? || l.AckCovered?)
    requires StreamOk(Apply(w, l).work) && ItemsOk(Apply(w, l))
    ensures l.id in Executions(w) && Executions(Apply(w, l)) == Executions(w) - {l.id}
    ensures Executions(w)[l.id].settled == (l.id in w.past.covered)
  {
  }

  lemma AckRefines(w: World, l: Label, max: int)
    requires Abstractable(w) && Enabled(w, l, max) && (l.AckDone? || l.AckCovered?)
    requires StreamOk(Apply(w, l).work) && ItemsOk(Apply(w, l))
    ensures Refines(w, l, max)
  {
    hide Tickets, Executions, StreamOk, ItemsOk;
    AbstractableBase(w);
    TicketsAfter(w, l, max);
    ExecutionsAfterAck(w, l, max);
  }

  lemma ExecutionsAfterTake(w: World, ids: set<nat>, max: int)
    requires StreamOk(w.work) && ItemsOk(w) && PendingHaveBodies(w) && Enabled(w, Take(ids), max)
    requires StreamOk(Apply(w, Take(ids)).work) && ItemsOk(Apply(w, Take(ids)))
    ensures ids <= Executions(w).Keys
    ensures Executions(Apply(w, Take(ids))) == map id | id in Executions(w) ::
      if id in ids then Executions(w)[id].(owner := RECLAIMER) else Executions(w)[id]
  {
  }

  lemma TakeRefines(w: World, ids: set<nat>, max: int)
    requires Abstractable(w) && Enabled(w, Take(ids), max)
    requires StreamOk(Apply(w, Take(ids)).work) && ItemsOk(Apply(w, Take(ids)))
    ensures Refines(w, Take(ids), max)
  {
    hide Tickets, Executions, StreamOk, ItemsOk, Enabled, PendingHaveBodies;
    AbstractableBase(w);
    TicketsAfter(w, Take(ids), max);
    ExecutionsAfterTake(w, ids, max);
  }

  lemma OtherRefines(w: World, l: Label, max: int)
    requires Abstractable(w) && Enabled(w, l, max) && (l.Spawn? || l.PodMoves? || l.Vanish? || l.Delete?)
    requires StreamOk(Apply(w, l).work) && ItemsOk(Apply(w, l))
    ensures Refines(w, l, max)
  {
    TicketsAfter(w, l, max);
    assert Executions(Apply(w, l)) == Executions(w);
  }

  /** Refinement, step by step: each call that takes effect and each move of a pod is one action of the
      abstract queue or a stutter. */
  lemma StepRefines(w: World, l: Label, max: int)
    requires Inv(w, max) && Enabled(w, l, max)
    ensures Refines(w, l, max)
  {
    hide Enabled, Apply, Refines, Abstractable;
    InvAbstractable(w, max);
    StepInv(w, l, max);
    match l
    case Retry(id) => RetryRefines(w, id, max);
    case DeadLetter(id) => DeadLetterRefines(w, id, max);
    case ClaimNext(n) => ClaimRefines(w, n, max);
    case Take(ids) => TakeRefines(w, ids, max);
    case AckDone(_) => AckRefines(w, l, max);
    case AckCovered(_) => AckRefines(w, l, max);
    case _ => OtherRefines(w, l, max);
  }

  /** Every run of the controller and the pods is, state by state, a run of the abstract queue. */
  lemma RunRefines(w: World, run: seq<Label>, max: int, k: nat)
    requires Seeded(w, max) && Legal(w, run, max) && k < |run|
    ensures var (now, next) := (Exec(w, run[..k]), Exec(w, run[..k + 1]));
      && StreamOk(now.work) && ItemsOk(now) && StreamOk(next.work) && ItemsOk(next)
      && Step(Alpha(now), ActionOf(now, run[k]), Alpha(next), max)
  {
    hide Inv, Seeded, Legal, Enabled, Exec, Apply, Step, Alpha, ActionOf;
    SeededInv(w, max);
    RunStep(w, run, max, k);
    RunInv(w, run[..k], max);
    StepRefines(Exec(w, run[..k]), run[k], max);
  }
}
