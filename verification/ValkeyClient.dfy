/** The queue client's stream operations over one instance's work stream and dead letter stream.

    A call either succeeds, or reports an error with or without having taken effect (a lost reply).
    Each failing call uses up one of `faultsLeft`; a finite run has finitely many, so proving a
    property for every initial value proves it for every pattern of failures. */
module ValkeyClient {
  import opened Decimal
  import opened Streams

  datatype Key = WorkKey | DlqKey

  // Range ends "-", "+" and a single id.
  datatype Bound = First | Last | At(id: nat)

  datatype Message = Message(id: nat, values: Body)

  datatype PendingEntry = PendingEntry(id: nat, consumer: string)

  datatype Outcome = Replied | LostReply | NotSent

  function Ids(messages: seq<Message>): (ids: seq<nat>)
    ensures |ids| == |messages|
    ensures forall i :: 0 <= i < |ids| ==> ids[i] == messages[i].id
  {
    seq(|messages|, i requires 0 <= i < |messages| => messages[i].id)
  }

  function PendingIds(pending: seq<PendingEntry>): (ids: seq<nat>)
    ensures |ids| == |pending|
    ensures forall i :: 0 <= i < |ids| ==> ids[i] == pending[i].id
  {
    seq(|pending|, i requires 0 <= i < |pending| => pending[i].id)
  }

  function InRange(s: Stream, start: Bound, end: Bound): set<nat> {
    set id | id in s.entries && (start.At? ==> start.id <= id) && (end.At? ==> id <= end.id)
  }

  // The messages carry the bodies the stream holds.
  ghost predicate FromStream(messages: seq<Message>, s: Stream) {
    forall i :: 0 <= i < |messages| ==>
      messages[i].id in s.entries && messages[i].values == s.entries[messages[i].id]
  }

  // The server's scan of an id-ordered index.
  method Scan(from: set<nat>, top: nat, count: nat) returns (ids: seq<nat>)
    requires forall x :: x in from ==> x <= top
    ensures Least(ids, from, count)
  {
    ids := [];
    for id := 0 to top + 1
      invariant Ascending(ids)
      invariant forall i :: 0 <= i < |ids| ==> ids[i] in from && ids[i] < id
      invariant count > 0 ==> |ids| < count
      invariant forall x :: x in from && x < id ==> x in ids
    {
      if id in from {
        ids := ids + [id];
        if count > 0 && |ids| == count {
          return;
        }
      }
    }
  }

  // Claiming the oldest loses no pending message with a body, and an answer without messages means that
  // none of the oldest had one.
  lemma ClaimedOldest(s: Stream, s': Stream, oldest: seq<nat>, consumer: string, count: nat, messages: seq<Message>)
    requires Least(oldest, s.pel.Keys, count) && count > 0
    requires s' == XClaim(s, (set id | id in oldest), consumer)
    requires forall id :: id in Ids(messages) <==> id in oldest && id in s.entries
    ensures s'.pel.Keys <= s.pel.Keys && PendingBodies(s') == PendingBodies(s) && Outstanding(s') == Outstanding(s)
    ensures forall id :: id in Ids(messages) ==> id in Outstanding(s')
    ensures s'.delivered == s.delivered
    ensures forall id :: id in Ids(messages) ==> id in s'.pel && s'.pel[id] == consumer
    ensures s.pel != map[] && s.pel.Keys <= s.entries.Keys ==> messages != []
  {
    if s.pel != map[] && s.pel.Keys <= s.entries.Keys {
      var some :| some in s.pel.Keys;
      assert oldest != [];
      assert oldest[0] in oldest && oldest[0] in s.pel.Keys;
      assert oldest[0] in Ids(messages);
    }
  }

  class Valkey {
    var work: Stream
    var dlq: Stream
    // Whether the work stream's consumer group has been created.
    var hasGroup: bool
    var faultsLeft: nat
    // Deliveries that have been idle for longer than the reclaimer's timeout.
    var idle: set<nat>

    constructor (faults: nat)
      ensures work == EMPTY && dlq == EMPTY && !hasGroup && faultsLeft == faults && idle == {}
      ensures Valid()
    {
      work, dlq, hasGroup, faultsLeft, idle := EMPTY, EMPTY, false, faults, {};
    }

    ghost predicate Valid()
      reads this
    {
      StreamOk(work) && StreamOk(dlq) && IdleOk()
    }

    ghost predicate IdleOk()
      reads this
    {
      forall id :: id in idle ==> id <= work.delivered
    }

    // Time passes: any further deliveries may have become idle.
    method Tick()
      requires IdleOk()
      modifies this`idle
      ensures IdleOk() && old(idle) <= idle
    {
      var stale: set<nat> := *;
      idle := idle + (set id: nat | id in stale && id <= work.delivered);
    }

    function Get(key: Key): Stream
      reads this
    {
      if key.WorkKey? then work else dlq
    }

    method Put(key: Key, s: Stream)
      modifies this`work, this`dlq
      ensures work == if key.WorkKey? then s else old(work)
      ensures dlq == if key.DlqKey? then s else old(dlq)
    {
      if key.WorkKey? {
        work := s;
      } else {
        dlq := s;
      }
    }

    method Call() returns (outcome: Outcome)
      modifies this`faultsLeft
      ensures outcome.Replied? ==> faultsLeft == old(faultsLeft)
      ensures !outcome.Replied? ==> faultsLeft + 1 == old(faultsLeft)
    {
      outcome := *;
      if faultsLeft == 0 {
        outcome := Replied;
      } else if !outcome.Replied? {
        faultsLeft := faultsLeft - 1;
      }
    }

    // Idempotent: the group starts before the first entry, and an existing group is left alone. A stream
    // that does not exist yet has length 0, like an empty one.
    method CreateStreamAndGroup() returns (ok: bool)
      modifies this`faultsLeft, this`hasGroup
      ensures faultsLeft <= old(faultsLeft) && (!ok ==> faultsLeft < old(faultsLeft))
      ensures old(hasGroup) || ok ==> hasGroup
    {
      var outcome := Call();
      if !outcome.NotSent? {
        hasGroup := true;
      }
      ok := outcome.Replied?;
    }

    method EnqueueFileWithAttempts(file: string, attempts: int) returns (ok: bool)
      requires Valid()
      modifies this`work, this`dlq, this`faultsLeft, this`idle
      ensures Valid() && dlq == old(dlq)
      ensures idle == old(idle)
      ensures faultsLeft <= old(faultsLeft) && (!ok ==> faultsLeft < old(faultsLeft))
      ensures work == XAdd(old(work), Body(file, Itoa(attempts))) || (!ok && work == old(work))
    {
      var outcome := Call();
      if !outcome.NotSent? {
        work := XAdd(work, Body(file, Itoa(attempts)));
      }
      ok := outcome.Replied?;
    }

    method AddToDLQ(file: string, attempts: int) returns (ok: bool)
      requires Valid()
      modifies this`work, this`dlq, this`faultsLeft, this`idle
      ensures Valid() && work == old(work)
      ensures idle == old(idle)
      ensures faultsLeft <= old(faultsLeft) && (!ok ==> faultsLeft < old(faultsLeft))
      ensures dlq == XAdd(old(dlq), Body(file, Itoa(attempts))) || (!ok && dlq == old(dlq))
    {
      var outcome := Call();
      if !outcome.NotSent? {
        dlq := XAdd(dlq, Body(file, Itoa(attempts)));
      }
      ok := outcome.Replied?;
    }

    method AckMessage(id: nat) returns (ok: bool)
      requires Valid()
      modifies this`work, this`dlq, this`faultsLeft, this`idle
      ensures Valid() && dlq == old(dlq)
      ensures idle == old(idle)
      ensures faultsLeft <= old(faultsLeft) && (!ok ==> faultsLeft < old(faultsLeft))
      ensures work == XAck(old(work), id) || (!ok && work == old(work))
    {
      var outcome := Call();
      if !outcome.NotSent? {
        work := XAck(work, id);
      }
      ok := outcome.Replied?;
    }

    method DeleteMessages(key: Key, ids: seq<nat>) returns (ok: bool)
      requires Valid()
      modifies this`work, this`dlq, this`faultsLeft, this`idle
      ensures Valid()
      ensures idle == old(idle)
      ensures faultsLeft <= old(faultsLeft) && (!ok ==> faultsLeft < old(faultsLeft))
      ensures key.WorkKey? ==> dlq == old(dlq)
      ensures key.DlqKey? ==> work == old(work)
      ensures Get(key) == XDel(old(Get(key)), set id | id in ids) || (!ok && Get(key) == old(Get(key)))
    {
      if |ids| == 0 {
        assert XDel(Get(key), set id | id in ids).entries == Get(key).entries;
        return true;
      }
      var outcome := Call();
      if !outcome.NotSent? {
        Put(key, XDel(Get(key), set id | id in ids));
      }
      ok := outcome.Replied?;
    }

    // The answer lists, in order, the bodies of the first `count` entries between the bounds (0: all).
    method ReadRange(key: Key, start: Bound, end: Bound, count: nat) returns (ok: bool, messages: seq<Message>)
      requires Valid()
      modifies this`faultsLeft
      ensures faultsLeft <= old(faultsLeft) && (!ok ==> faultsLeft < old(faultsLeft))
      ensures ok ==> FromStream(messages, Get(key))
      ensures ok ==> Least(Ids(messages), InRange(Get(key), start, end), count)
    {
      messages := [];
      var outcome := Call();
      ok := outcome.Replied?;
      if ok {
        var s := Get(key);
        var ids := Scan(InRange(s, start, end), s.lastId, count);
        messages := Bodies(s, ids);
        assert Ids(messages) == ids;
      }
    }

    method Bodies(s: Stream, ids: seq<nat>) returns (messages: seq<Message>)
      requires forall id :: id in ids ==> id in s.entries
      ensures Ids(messages) == ids && FromStream(messages, s)
    {
      messages := [];
      for i := 0 to |ids|
        invariant |messages| == i
        invariant forall k :: 0 <= k < i ==> messages[k].id == ids[k]
        invariant FromStream(messages, s)
      {
        assert ids[i] in ids;
        messages := messages + [Message(ids[i], s.entries[ids[i]])];
      }
    }

    method GetPendingForConsumer(consumer: string, count: int) returns (ok: bool, ids: seq<nat>)
      requires Valid()
      modifies this`faultsLeft
      ensures faultsLeft <= old(faultsLeft) && (!ok ==> faultsLeft < old(faultsLeft))
      ensures ok ==> Least(ids, OwnedBy(work, consumer), if count <= 0 then 10 else count)
    {
      ids := [];
      var limit: nat := if count <= 0 then 10 else count;
      var outcome := Call();
      ok := outcome.Replied?;
      if ok {
        ids := Scan(OwnedBy(work, consumer), work.delivered, limit);
      }
    }

    method GetPendingEntryDetails(count: int) returns (ok: bool, pending: seq<PendingEntry>)
      requires Valid()
      modifies this`faultsLeft
      ensures faultsLeft <= old(faultsLeft) && (!ok ==> faultsLeft < old(faultsLeft))
      ensures ok ==> Least(PendingIds(pending), Stale(), if count <= 0 then 100 else count)
      ensures ok ==> forall i :: 0 <= i < |pending| ==>
                pending[i].id in work.pel && pending[i].consumer == work.pel[pending[i].id]
    {
      pending := [];
      var limit: nat := if count <= 0 then 100 else count;
      var outcome := Call();
      ok := outcome.Replied?;
      if ok {
        var ids := Scan(Stale(), work.delivered, limit);
        for i := 0 to |ids|
          invariant |pending| == i
          invariant forall k :: 0 <= k < i ==> pending[k].id == ids[k]
          invariant forall k :: 0 <= k < i ==>
            pending[k].id in work.pel && pending[k].consumer == work.pel[pending[k].id]
        {
          assert ids[i] in ids;
          pending := pending + [PendingEntry(ids[i], work.pel[ids[i]])];
        }
        assert PendingIds(pending) == ids;
      }
    }

    function Stale(): set<nat>
      reads this
    {
      set id | id in work.pel && id in idle
    }

    // XCLAIM takes those of the given ids that are pending and still idle enough; that resets their clocks.
    method ClaimMessages(consumer: string, ids: seq<nat>)
      returns (ok: bool, messages: seq<Message>, ghost taken: set<nat>)
      requires Valid()
      modifies this`work, this`dlq, this`faultsLeft, this`idle
      ensures Valid() && dlq == old(dlq)
      ensures faultsLeft <= old(faultsLeft) && (!ok ==> faultsLeft < old(faultsLeft))
      ensures taken == (set id | id in ids && id in old(Stale())) || (!ok && taken == {})
      ensures work == XClaim(old(work), taken, consumer) && idle == old(idle) - taken
      ensures ok ==> FromStream(messages, work) && (Ascending(ids) ==> Ascending(Ids(messages)))
      ensures ok ==> forall id :: id in Ids(messages) <==> id in taken && id in work.entries
    {
      messages, taken := [], {};
      assert XClaim(work, {}, consumer).pel == work.pel;
      if |ids| == 0 {
        return true, [], {};
      }
      var chosen := set id | id in ids && id in Stale();
      var outcome := Call();
      if !outcome.NotSent? {
        taken := chosen;
        work, idle := XClaim(work, chosen, consumer), idle - chosen;
        if outcome.Replied? {
          var claimed := [];
          for i := 0 to |ids|
            invariant forall x :: x in claimed <==> x in ids[..i] && x in chosen && x in work.entries
            invariant Ascending(ids) ==> Ascending(claimed)
            invariant Ascending(ids) ==> forall k, j :: 0 <= k < |claimed| && i <= j < |ids| ==> claimed[k] < ids[j]
          {
            assert ids[..i + 1] == ids[..i] + [ids[i]];
            if ids[i] in chosen && ids[i] in work.entries {
              claimed := claimed + [ids[i]];
            }
          }
          assert ids[..|ids|] == ids;
          messages := Bodies(work, claimed);
        }
      }
      ok := outcome.Replied?;
    }

    // XAUTOCLAIM from 0-0 with no idle limit takes the `count` oldest pending ids; those without a
    // body are dropped from the pending list and not returned.
    method AutoClaim(consumer: string, count: nat) returns (ok: bool, messages: seq<Message>, ghost oldest: seq<nat>)
      requires Valid() && count > 0
      modifies this`work, this`dlq, this`faultsLeft, this`idle
      ensures Valid() && dlq == old(dlq)
      ensures faultsLeft <= old(faultsLeft) && (!ok ==> faultsLeft < old(faultsLeft))
      ensures Least(oldest, old(work).pel.Keys, count)
      ensures work == XClaim(old(work), (set id | id in oldest), consumer) || (!ok && work == old(work))
      ensures ok ==> Ascending(Ids(messages)) && FromStream(messages, work)
      ensures ok ==> forall id :: id in Ids(messages) <==> id in oldest && id in work.entries
    {
      messages := [];
      var ids := Scan(work.pel.Keys, work.delivered, count);
      oldest := ids;
      var outcome := Call();
      if !outcome.NotSent? {
        var claimed := Scan((set id | id in ids && id in work.entries), work.delivered, 0);
        work, idle := XClaim(work, (set id | id in ids), consumer), idle - (set id | id in ids);
        if outcome.Replied? {
          messages := Bodies(work, claimed);
        }
      }
      ok := outcome.Replied?;
    }

    method GetStreamLength(key: Key) returns (ok: bool, length: nat)
      modifies this`faultsLeft
      ensures faultsLeft <= old(faultsLeft) && (!ok ==> faultsLeft < old(faultsLeft))
      ensures length == if ok then |Get(key).entries| else 0
    {
      var outcome := Call();
      ok, length := outcome.Replied?, if outcome.Replied? then |Get(key).entries| else 0;
    }

    method GetPendingCount() returns (ok: bool, count: nat)
      modifies this`faultsLeft
      ensures faultsLeft <= old(faultsLeft) && (!ok ==> faultsLeft < old(faultsLeft))
      ensures count == if ok then |work.pel| else 0
    {
      var outcome := Call();
      ok, count := outcome.Replied?, if outcome.Replied? then |work.pel| else 0;
    }

    method GetConsumerGroupLag() returns (ok: bool, lag: nat)
      modifies this`faultsLeft
      ensures faultsLeft <= old(faultsLeft) && (!ok ==> faultsLeft < old(faultsLeft))
      ensures lag == if ok then Lag(work) else 0
    {
      var outcome := Call();
      ok, lag := outcome.Replied?, if outcome.Replied? then Lag(work) else 0;
    }

    // Any number of claims by pods.
    method Claims(quiet: bool)
      requires Valid()
      modifies this`work
      ensures Valid() && work.entries == old(work).entries && work.lastId == old(work).lastId
      ensures Outstanding(work) == Outstanding(old(work)) && old(work).delivered <= work.delivered
      ensures PelKept(old(work), work, {})
      ensures quiet ==> work == old(work)
    {
      var n: nat := *;
      while n > 0 && !quiet
        invariant Valid() && work.entries == old(work).entries && work.lastId == old(work).lastId
        invariant Outstanding(work) == Outstanding(old(work)) && old(work).delivered <= work.delivered
        invariant PelKept(old(work), work, {})
        invariant quiet ==> work == old(work)
      {
        var consumer: string := *;
        var message := ReadGroupNew(consumer);
        n := n - 1;
      }
    }

    // One attempt of the claimer: XREADGROUP ">" COUNT 1, taken as atomic. Nothing undelivered: nothing happens.
    method ReadGroupNew(consumer: string) returns (message: Option<Message>)
      requires StreamOk(work)
      modifies this`work
      ensures StreamOk(work) && (old(IdleOk()) ==> IdleOk())
      ensures message.None? <==> Undelivered(old(work)) == {}
      ensures message.None? ==> work == old(work)
      ensures message.Some? ==>
                && message.value.id in Undelivered(old(work))
                && (forall id :: id in Undelivered(old(work)) ==> message.value.id <= id)
                && message.value.values == old(work).entries[message.value.id]
                && work == Deliver(old(work), message.value.id, consumer)
    {
      var ids := Scan(Undelivered(work), work.lastId, 1);
      if ids == [] {
        return None;
      }
      assert ids[0] in ids;
      message := Some(Message(ids[0], work.entries[ids[0]]));
      work := Deliver(work, ids[0], consumer);
    }
  }
}
