/** The server side of a Valkey stream with one consumer group, as values.

    A stream is kept as the server keeps it, keyed by entry id. Ids grow by one from 1: only their
    order matters to the program. */
module Streams {

  // The fields of a message the program reads; an absent field reads as "".
  datatype Body = Body(file: string, attempts: string)

  datatype Stream = Stream(
    entries: map<nat, Body>,
    lastId: nat,              // id of the newest entry ever added
    delivered: nat,           // the group's last-delivered id
    pel: map<nat, string>)    // delivered and not acknowledged: id to consumer

  const EMPTY: Stream := Stream(map[], 0, 0, map[])

  ghost predicate StreamOk(s: Stream) {
    && (forall id :: id in s.entries ==> 1 <= id <= s.lastId)
    && (forall id :: id in s.pel ==> 1 <= id <= s.delivered)
    && s.delivered <= s.lastId
  }

  function XAdd(s: Stream, body: Body): Stream {
    s.(entries := s.entries[s.lastId + 1 := body], lastId := s.lastId + 1)
  }

  function XAck(s: Stream, id: nat): Stream {
    s.(pel := s.pel - {id})
  }

  function XDel(s: Stream, ids: set<nat>): Stream {
    s.(entries := s.entries - ids)
  }

  // XCLAIM and XAUTOCLAIM: a pending id whose entry is gone leaves the pending list instead.
  function XClaim(s: Stream, ids: set<nat>, consumer: string): Stream {
    s.(pel := map id | id in s.pel && (id in ids ==> id in s.entries) ::
                if id in ids then consumer else s.pel[id])
  }

  // XREADGROUP with id ">" delivers entry id to the consumer.
  function Deliver(s: Stream, id: nat, consumer: string): Stream {
    s.(delivered := id, pel := s.pel[id := consumer])
  }

  // Ids not yet delivered to the group.
  function Undelivered(s: Stream): set<nat> {
    set id | id in s.entries && id > s.delivered
  }

  // The group's lag, taken as the exact number of undelivered entries.
  function Lag(s: Stream): nat {
    |Undelivered(s)|
  }

  // Pending ids whose entry is still in the stream.
  function PendingBodies(s: Stream): set<nat> {
    set id | id in s.pel && id in s.entries
  }

  // Messages whose body a consumer may still get to see: undelivered, or pending.
  function Outstanding(s: Stream): set<nat> {
    Undelivered(s) + PendingBodies(s)
  }

  ghost predicate Ascending(ids: seq<nat>) {
    forall i, j :: 0 <= i < j < |ids| ==> ids[i] < ids[j]
  }

  // A range query with a COUNT answers with the least `count` members of a set, in order; 0 is no limit.
  ghost predicate Least(ids: seq<nat>, from: set<nat>, count: nat) {
    && Ascending(ids)
    && (forall id :: id in ids ==> id in from)
    && (count > 0 ==> |ids| <= count)
    && (forall x :: x in from ==> x in ids || (count > 0 && |ids| == count && forall y :: y in ids ==> y < x))
  }

  function OwnedBy(s: Stream, consumer: string): set<nat> {
    set id | id in s.pel && s.pel[id] == consumer
  }

  // Of the deliveries that were pending only those in `gone` may have left, none has changed hands, and any new
  // ones are of later messages.
  ghost predicate PelKept(s: Stream, s': Stream, gone: set<nat>) {
    && s.delivered <= s'.delivered
    && (forall id :: id in s.pel && id !in gone ==> id in s'.pel)
    && (forall id :: id in s.pel && id in s'.pel ==> s'.pel[id] == s.pel[id])
    && (forall id :: id in s'.pel && id !in s.pel ==> id > s.delivered)
  }

  lemma Subset<T>(a: set<T>, b: set<T>)
    requires a <= b
    ensures |a| <= |b|
  {
    assert b == a + (b - a);
  }
}
