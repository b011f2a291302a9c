/** Flushing a failed run: the work stream is drained and what it held is merged into the dead letter queue.

    Pods that are still there may claim between any two calls, unless `quiet`: then the Job's pods are gone. */
module Flush {
  import opened Decimal
  import opened Streams
  import opened ValkeyClient

  const FLUSHER: string := "controller-flush"
  const UNKNOWN: string := "<unknown>"

  function Name(file: string): string {
    if file == "" then UNKNOWN else file
  }

  // Stream messages are tallied by display name, dead letters by their file field as it stands.
  function KeyOf(body: Body, raw: bool): string {
    if raw then body.file else Name(body.file)
  }

  function Attempts(body: Body, max: int): int {
    ParseAttempts(body.attempts, max)
  }

  // if attempts > m[file] { m[file] = attempts }, where a missing key reads as 0.
  function Raise(m: map<string, int>, file: string, attempts: int): map<string, int> {
    if attempts > (if file in m then m[file] else 0) then m[file := attempts] else m
  }

  ghost predicate Votes(es: map<nat, Body>, ids: set<nat>, raw: bool, max: int, id: nat, file: string, attempts: int) {
    id in ids && id in es && KeyOf(es[id], raw) == file && Attempts(es[id], max) == attempts
  }

  // m holds, for each file of the messages `ids` of `es`, the greatest positive attempts seen.
  ghost predicate Tally(m: map<string, int>, es: map<nat, Body>, ids: set<nat>, raw: bool, max: int) {
    && (forall id :: id in ids && id in es && Attempts(es[id], max) > 0 ==>
          KeyOf(es[id], raw) in m && m[KeyOf(es[id], raw)] >= Attempts(es[id], max))
    && (forall f :: f in m ==> m[f] > 0 && exists id :: Votes(es, ids, raw, max, id, f, m[f]))
  }

  lemma TallyAdds(m: map<string, int>, es: map<nat, Body>, ids: set<nat>, raw: bool, max: int, id: nat)
    requires Tally(m, es, ids, raw, max) && id in es
    ensures Tally(Raise(m, KeyOf(es[id], raw), Attempts(es[id], max)), es, ids + {id}, raw, max)
  {
    var (f, a) := (KeyOf(es[id], raw), Attempts(es[id], max));
    var m' := Raise(m, f, a);
    forall g | g in m' ensures m'[g] > 0 && exists x :: Votes(es, ids + {id}, raw, max, x, g, m'[g]) {
      if g in m && m'[g] == m[g] {
        var x :| Votes(es, ids, raw, max, x, g, m[g]);
        assert Votes(es, ids + {id}, raw, max, x, g, m'[g]);
      } else {
        assert Votes(es, ids + {id}, raw, max, id, g, m'[g]);
      }
    }
  }

  // The map the flush writes out: per file, the greatest attempts over the stream and the dead letters.
  ghost predicate Merged(final: map<string, int>, stream: map<string, int>, dead: map<string, int>) {
    && final.Keys == stream.Keys + dead.Keys
    && (forall f :: f in final ==>
          final[f] == if f in stream && f in dead then Greater(stream[f], dead[f])
                      else if f in stream then stream[f] else dead[f])
  }

  function Greater(a: int, b: int): int {
    if a >= b then a else b
  }

  // Body of the letter written for a file.
  function Letter(file: string, attempts: int, max: int): Body {
    Body(file, Itoa(Greater(attempts, max)))
  }

  // Letters of the files written so far replace theirs; all other letters stay.
  ghost predicate Rewritten(before: Stream, after: map<nat, Body>, final: map<string, int>,
                            written: set<string>, max: int)
  {
    && OldLetters(before, after, written)
    && NewLetters(before, after, final, written, max)
    && OnePerFile(before, after, written)
  }

  ghost predicate OldLetters(before: Stream, after: map<nat, Body>, written: set<string>) {
    && (forall d :: d in after && d <= before.lastId ==>
          d in before.entries && after[d] == before.entries[d] && after[d].file !in written)
    && (forall d :: d in before.entries && before.entries[d].file !in written ==> d in after)
  }

  ghost predicate NewLetters(before: Stream, after: map<nat, Body>, final: map<string, int>,
                             written: set<string>, max: int)
  {
    forall d :: d in after && d > before.lastId ==>
      after[d].file in written && after[d].file in final && after[d] == Letter(after[d].file, final[after[d].file], max)
  }

  ghost predicate OnePerFile(before: Stream, after: map<nat, Body>, written: set<string>) {
    && (forall f :: f in written ==> HasNewLetter(before, after, f))
    && (forall d, e :: d in after && e in after && d > before.lastId && e > before.lastId ==>
          (after[d].file == after[e].file ==> d == e))
  }

  ghost predicate HasNewLetter(before: Stream, after: map<nat, Body>, file: string) {
    exists d :: d in after && d > before.lastId && after[d].file == file
  }

  // ---------------------------------------------------------------- the flush, loop by loop

  ghost predicate Part(entries: map<nat, Body>, es: map<nat, Body>) {
    forall id :: id in entries ==> id in es && es[id] == entries[id]
  }

  // What has left the stream has been tallied.
  ghost predicate Draining(s: Stream, es: map<nat, Body>, m: map<string, int>, tallied: set<nat>, max: int) {
    && Part(s.entries, es)
    && Tally(m, es, tallied, false, max)
    && tallied <= es.Keys
    && es.Keys - s.entries.Keys <= tallied
  }

  lemma DrainingStays(s: Stream, s': Stream, es: map<nat, Body>, m: map<string, int>, tallied: set<nat>, max: int)
    requires Draining(s, es, m, tallied, max)
    requires Part(s'.entries, s.entries) && s.entries.Keys - s'.entries.Keys <= tallied
    ensures Draining(s', es, m, tallied, max)
  {
  }

  // One message of a drain enters the tally.
  method TallyMessage(m: map<string, int>, message: Message, max: int,
                      ghost s: Stream, ghost es: map<nat, Body>, ghost tallied: set<nat>)
    returns (m': map<string, int>)
    requires Draining(s, es, m, tallied, max)
    requires message.id in es && es[message.id] == message.values
    ensures Draining(s, es, m', tallied + {message.id}, max)
  {
    var file := message.values.file;
    var attempts := ParseAttempts(message.values.attempts, max);
    if file == "" {
      file := UNKNOWN;
    }
    m' := Raise(m, file, attempts);
    TallyAdds(m, es, tallied, false, max, message.id);
  }

  // Acknowledge and delete one claimed message; a failure of either is only logged. The message is out of the
  // way as soon as one of the two calls takes effect.
  method Discard(queue: Valkey, id: nat, quiet: bool)
    requires queue.Valid() && id <= queue.work.delivered
    modifies queue
    ensures queue.Valid() && queue.dlq == old(queue.dlq) && queue.work.delivered >= old(queue.work).delivered
    ensures Part(queue.work.entries, old(queue.work).entries)
    ensures old(queue.work).entries.Keys - queue.work.entries.Keys <= {id}
    ensures Outstanding(queue.work) <= Outstanding(old(queue.work))
    ensures queue.faultsLeft <= old(queue.faultsLeft) - if id in Outstanding(queue.work) then 2 else 0
    ensures quiet && queue.faultsLeft == old(queue.faultsLeft) ==> queue.work.pel == old(queue.work).pel - {id}
  {
    queue.Claims(quiet);
    ghost var before := queue.work;
    var acked := queue.AckMessage(id);
    assert Outstanding(queue.work) <= Outstanding(before);
    queue.Claims(quiet);
    ghost var after := queue.work;
    assert acked ==> id !in Outstanding(after);
    var deleted := queue.DeleteMessages(WorkKey, [id]);
    assert (set x | x in [id]) == {id};
    assert Outstanding(queue.work) <= Outstanding(after);
  }

  method DrainBatch(queue: Valkey, messages: seq<Message>, max: int, quiet: bool, m: map<string, int>,
                    ghost es: map<nat, Body>, ghost tallied: set<nat>)
    returns (m': map<string, int>, ghost tallied': set<nat>)
    requires queue.Valid() && Draining(queue.work, es, m, tallied, max)
    requires forall i :: 0 <= i < |messages| ==> messages[i].id in es && es[messages[i].id] == messages[i].values
    requires forall i :: 0 <= i < |messages| ==> messages[i].id <= queue.work.delivered
    modifies queue
    ensures queue.Valid() && queue.dlq == old(queue.dlq) && queue.faultsLeft <= old(queue.faultsLeft)
    ensures Draining(queue.work, es, m', tallied', max)
    ensures Outstanding(queue.work) <= Outstanding(old(queue.work))
    // A batch that gets no message out of the way has lost both calls for each of them.
    ensures Stuck(messages, queue.work) ==> queue.faultsLeft + 2 * |messages| <= old(queue.faultsLeft)
    ensures quiet && queue.faultsLeft == old(queue.faultsLeft) && AllHaveBodies(old(queue.work)) ==>
              AllHaveBodies(queue.work)
  {
    hide Draining, Tally, Outstanding;
    m', tallied' := m, tallied;
    for i := 0 to |messages|
      invariant queue.Valid() && queue.dlq == old(queue.dlq) && queue.faultsLeft <= old(queue.faultsLeft)
      invariant queue.work.delivered >= old(queue.work).delivered
      invariant Draining(queue.work, es, m', tallied', max)
      invariant Outstanding(queue.work) <= Outstanding(old(queue.work))
      invariant Stuck(messages[..i], queue.work) ==> queue.faultsLeft + 2 * i <= old(queue.faultsLeft)
      invariant quiet && queue.faultsLeft == old(queue.faultsLeft) && AllHaveBodies(old(queue.work)) ==>
        AllHaveBodies(queue.work)
    {
      ghost var s := queue.work;
      m' := TallyMessage(m', messages[i], max, s, es, tallied');
      tallied' := tallied' + {messages[i].id};
      Discard(queue, messages[i].id, quiet);
      DrainingStays(s, queue.work, es, m', tallied', max);
      StuckBefore(messages[..i + 1], s, queue.work);
      assert messages[..i + 1][..i] == messages[..i];
    }
    assert messages[..|messages|] == messages;
  }

  // Neither XACK nor XDEL took effect for any of the messages.
  ghost predicate Stuck(messages: seq<Message>, s: Stream) {
    forall i :: 0 <= i < |messages| ==> messages[i].id in Outstanding(s)
  }

  lemma StuckBefore(messages: seq<Message>, s: Stream, s': Stream)
    requires messages != [] && Outstanding(s') <= Outstanding(s)
    ensures Stuck(messages, s') ==>
              Stuck(messages[..|messages| - 1], s) && messages[|messages| - 1].id in Outstanding(s')
  {
    hide Outstanding;
  }

  ghost predicate AllHaveBodies(s: Stream) {
    s.pel.Keys <= s.entries.Keys
  }

  // One round of the first drain. It ends the drain, or gets a message out of the way, or it has lost both the
  // XACK and the XDEL of every message it was given, however many other calls fail and whatever is claimed.
  method DrainRound(queue: Valkey, max: int, quiet: bool, m: map<string, int>,
                    ghost es: map<nat, Body>, ghost tallied: set<nat>)
    returns (more: bool, m': map<string, int>, messages: seq<Message>, ghost tallied': set<nat>)
    requires queue.Valid() && Draining(queue.work, es, m, tallied, max)
    modifies queue
    ensures queue.Valid() && queue.dlq == old(queue.dlq) && queue.faultsLeft <= old(queue.faultsLeft)
    ensures Draining(queue.work, es, m', tallied', max)
    ensures Outstanding(queue.work) <= Outstanding(old(queue.work))
    ensures more ==> messages != []
    ensures more && !Stuck(messages, queue.work) ==> |Outstanding(queue.work)| < |Outstanding(old(queue.work))|
    ensures more && Stuck(messages, queue.work) ==> queue.faultsLeft + 2 * |messages| <= old(queue.faultsLeft)
    ensures quiet && queue.faultsLeft == old(queue.faultsLeft) && AllHaveBodies(old(queue.work)) ==>
              AllHaveBodies(queue.work) && (!more ==> queue.work.pel == map[])
  {
    hide Tally, Draining, Outstanding;
    m', tallied' := m, tallied;
    ghost var start := queue.work;
    queue.Claims(quiet);
    ghost var before := queue.work;
    var ok;
    ghost var oldest;
    ok, messages, oldest := queue.AutoClaim(FLUSHER, 100);
    ghost var claimed := queue.work;
    ClaimedParts(before, claimed, (set id | id in oldest), FLUSHER);
    DrainingStays(start, claimed, es, m', tallied', max);
    more := ok && |messages| > 0;
    if !ok {
      return;
    }
    ClaimedOldest(before, claimed, oldest, FLUSHER, 100, messages);
    if |messages| == 0 {
      return;
    }
    MessagesAreKnown(messages, claimed, es, m', tallied', max);
    MessagesWereDelivered(messages, claimed);
    m', tallied' := DrainBatch(queue, messages, max, quiet, m', es, tallied');
    if !Stuck(messages, queue.work) {
      ghost var i :| 0 <= i < |messages| && messages[i].id !in Outstanding(queue.work);
      assert messages[i].id == Ids(messages)[i];
      Fewer(Outstanding(queue.work), Outstanding(claimed), messages[i].id);
    }
  }

  lemma ClaimedParts(s: Stream, s': Stream, ids: set<nat>, consumer: string)
    ensures s' == XClaim(s, ids, consumer) || s' == s ==> Outstanding(s') == Outstanding(s) && s'.entries == s.entries
    ensures (s' == XClaim(s, ids, consumer) || s' == s) && AllHaveBodies(s) ==> AllHaveBodies(s')
  {
  }

  lemma MessagesWereDelivered(messages: seq<Message>, s: Stream)
    requires StreamOk(s) && forall id :: id in Ids(messages) ==> id in s.pel
    ensures forall i :: 0 <= i < |messages| ==> messages[i].id <= s.delivered
  {
    forall i | 0 <= i < |messages| ensures messages[i].id <= s.delivered {
      assert Ids(messages)[i] in Ids(messages);
    }
  }

  // First drain: claim what is pending, a hundred at a time. It ends whenever finitely many rounds are stuck:
  // their number and that of the outstanding messages bound the rounds, however many calls fail.
  method DrainPending(queue: Valkey, max: int, quiet: bool, m: map<string, int>,
                      ghost es: map<nat, Body>, ghost tallied: set<nat>)
    returns (m': map<string, int>, ghost tallied': set<nat>, ghost rounds: nat, ghost stuck: nat)
    requires queue.Valid() && Draining(queue.work, es, m, tallied, max)
    modifies queue
    ensures queue.Valid() && queue.dlq == old(queue.dlq) && queue.faultsLeft <= old(queue.faultsLeft)
    ensures Draining(queue.work, es, m', tallied', max)
    ensures rounds + |Outstanding(queue.work)| <= |Outstanding(old(queue.work))| + stuck + 1
    ensures queue.faultsLeft + 2 * stuck <= old(queue.faultsLeft)
    ensures quiet && old(queue.faultsLeft) == 0 && AllHaveBodies(old(queue.work)) ==> queue.work.pel == map[]
  {
    hide Tally, Draining, Outstanding;
    m', tallied', rounds, stuck := m, tallied, 0, 0;
    while true
      invariant queue.Valid() && queue.dlq == old(queue.dlq)
      invariant Draining(queue.work, es, m', tallied', max)
      invariant rounds + |Outstanding(queue.work)| <= |Outstanding(old(queue.work))| + stuck
      invariant queue.faultsLeft + 2 * stuck <= old(queue.faultsLeft)
      invariant quiet && old(queue.faultsLeft) == 0 && AllHaveBodies(old(queue.work)) ==> AllHaveBodies(queue.work)
      decreases |Outstanding(queue.work)|, queue.faultsLeft
    {
      ghost var was := Outstanding(queue.work);
      var more, messages;
      more, m', messages, tallied' := DrainRound(queue, max, quiet, m', es, tallied');
      rounds := rounds + 1;
      Subset(Outstanding(queue.work), was);
      if !more {
        break;
      }
      if Stuck(messages, queue.work) {
        stuck := stuck + 1;
      }
    }
  }

  lemma MessagesAreKnown(messages: seq<Message>, s: Stream, es: map<nat, Body>, m: map<string, int>,
                         tallied: set<nat>, max: int)
    requires FromStream(messages, s) && Draining(s, es, m, tallied, max)
    ensures forall i :: 0 <= i < |messages| ==> messages[i].id in es && es[messages[i].id] == messages[i].values
  {
  }

  lemma Fewer(small: set<nat>, large: set<nat>, x: nat)
    requires small <= large && x in large && x !in small
    ensures |small| < |large|
  {
    assert small <= large - {x};
    assert |large - {x}| == |large| - 1;
    assert large - {x} == small + (large - {x} - small);
  }

  method TallyBatch(messages: seq<Message>, max: int, m: map<string, int>,
                    ghost s: Stream, ghost es: map<nat, Body>, ghost tallied: set<nat>)
    returns (m': map<string, int>, ids: seq<nat>, ghost tallied': set<nat>)
    requires Draining(s, es, m, tallied, max) && FromStream(messages, s)
    ensures Draining(s, es, m', tallied', max)
    ensures ids == Ids(messages)
    ensures forall id :: id in ids ==> id in tallied' && id in s.entries
  {
    hide Draining, Tally;
    m', tallied' := m, tallied;
    ids := [];
    for i := 0 to |messages|
      invariant Draining(s, es, m', tallied', max)
      invariant |ids| == i
      invariant forall k :: 0 <= k < i ==> ids[k] == messages[k].id && ids[k] in tallied' && ids[k] in s.entries
    {
      BodyIsKnown(s, es, m', tallied', max, messages[i].id);
      m' := TallyMessage(m', messages[i], max, s, es, tallied');
      tallied' := tallied' + {messages[i].id};
      ids := ids + [messages[i].id];
    }
  }

  // Second drain: whatever is still in the stream, delivered or not. A failed read gives the flush up.
  method DrainStream(queue: Valkey, max: int, quiet: bool, m: map<string, int>,
                     ghost es: map<nat, Body>, ghost tallied: set<nat>)
    returns (ok: bool, m': map<string, int>, ghost tallied': set<nat>)
    requires queue.Valid() && Draining(queue.work, es, m, tallied, max)
    modifies queue
    ensures queue.Valid() && queue.dlq == old(queue.dlq) && queue.faultsLeft <= old(queue.faultsLeft)
    ensures Draining(queue.work, es, m', tallied', max)
    ensures quiet ==> queue.work.pel == old(queue.work).pel
    ensures old(queue.faultsLeft) == 0 ==> ok && queue.work.entries == map[]
    ensures !ok ==> queue.faultsLeft < old(queue.faultsLeft)
  {
    hide Draining, Tally, Least, FromStream;
    m', tallied' := m, tallied;
    while true
      invariant queue.Valid() && queue.dlq == old(queue.dlq) && queue.faultsLeft <= old(queue.faultsLeft)
      invariant Draining(queue.work, es, m', tallied', max)
      invariant quiet ==> queue.work.pel == old(queue.work).pel
      decreases |queue.work.entries|
    {
      ghost var start := queue.work;
      queue.Claims(quiet);
      DrainingStays(start, queue.work, es, m', tallied', max);
      var messages;
      ok, messages := queue.ReadRange(WorkKey, First, Last, 100);
      if !ok {
        return;
      }
      if |messages| == 0 {
        assert Ids(messages) == [];
        EmptyRead(queue.work);
        break;
      }
      ghost var s := queue.work;
      var ids;
      m', ids, tallied' := TallyBatch(messages, max, m', s, es, tallied');
      queue.Claims(quiet);
      var deleted := queue.DeleteMessages(WorkKey, ids);
      DrainingStays(s, queue.work, es, m', tallied', max);
      if !deleted {
        break;
      }
      assert ids[0] in ids && ids[0] in s.entries;
      Fewer(queue.work.entries.Keys, s.entries.Keys, ids[0]);
      assert |queue.work.entries| == |queue.work.entries.Keys| && |s.entries| == |s.entries.Keys|;
    }
    ok := true;
  }

  lemma EmptyRead(s: Stream)
    requires Least([], InRange(s, First, Last), 100)
    ensures s.entries == map[]
  {
    forall id ensures id !in s.entries {
      assert id in s.entries ==> id in InRange(s, First, Last);
    }
  }

  lemma BodyIsKnown(s: Stream, es: map<nat, Body>, m: map<string, int>, tallied: set<nat>, max: int, id: nat)
    requires Draining(s, es, m, tallied, max) && id in s.entries
    ensures id in es && es[id] == s.entries[id]
  {
  }

  // ---------------------------------------------------------------- the dead letters there already are

  // Which ids belong to each file.
  ghost predicate Lists(idsOf: map<string, seq<nat>>, es: map<nat, Body>, ids: set<nat>) {
    && (forall f, id :: f in idsOf && id in idsOf[f] ==> id in ids && id in es && es[id].file == f)
    && (forall id :: id in ids && id in es ==> es[id].file in idsOf && id in idsOf[es[id].file])
  }

  lemma ListsAdds(idsOf: map<string, seq<nat>>, es: map<nat, Body>, ids: set<nat>, id: nat)
    requires Lists(idsOf, es, ids) && id in es
    ensures var f := es[id].file;
      Lists(idsOf[f := (if f in idsOf then idsOf[f] else []) + [id]], es, ids + {id})
  {
  }

  method ReadExisting(queue: Valkey, max: int) returns (ok: bool, m: map<string, int>, idsOf: map<string, seq<nat>>)
    requires queue.Valid()
    modifies queue`faultsLeft
    ensures queue.faultsLeft <= old(queue.faultsLeft) && (!ok ==> queue.faultsLeft < old(queue.faultsLeft))
    ensures var ids := if ok then queue.dlq.entries.Keys else {};
      Tally(m, queue.dlq.entries, ids, true, max) && Lists(idsOf, queue.dlq.entries, ids)
  {
    hide Least, Tally, Lists;
    m, idsOf := map[], map[];
    var messages;
    ok, messages := queue.ReadRange(DlqKey, First, Last, 0);
    NothingListed(queue.dlq.entries, max);
    if ok {
      ghost var ids;
      m, idsOf, ids := TallyLetters(messages, max, queue.dlq.entries);
      FullRead(queue.dlq, Ids(messages), First, Last);
      assert ids == queue.dlq.entries.Keys;
    }
  }

  lemma NothingListed(es: map<nat, Body>, max: int)
    ensures Tally(map[], es, {}, true, max) && Lists(map[], es, {})
  {
  }

  method TallyLetters(messages: seq<Message>, max: int, ghost es: map<nat, Body>)
    returns (m: map<string, int>, idsOf: map<string, seq<nat>>, ghost ids: set<nat>)
    requires forall i :: 0 <= i < |messages| ==> messages[i].id in es && messages[i].values == es[messages[i].id]
    ensures Tally(m, es, ids, true, max) && Lists(idsOf, es, ids)
    ensures forall id :: id in ids <==> id in Ids(messages)
  {
    hide Tally, Lists;
    m, idsOf := map[], map[];
    NothingListed(es, max);
    ids := {};
    for i := 0 to |messages|
      invariant Tally(m, es, ids, true, max) && Lists(idsOf, es, ids)
      invariant forall id :: id in ids <==> id in Ids(messages)[..i]
    {
      var (id, file) := (messages[i].id, messages[i].values.file);
      var attempts := ParseAttempts(messages[i].values.attempts, max);
      TallyAdds(m, es, ids, true, max, id);
      ListsAdds(idsOf, es, ids, id);
      m := Raise(m, file, attempts);
      idsOf := idsOf[file := (if file in idsOf then idsOf[file] else []) + [id]];
      ids := ids + {id};
      assert Ids(messages)[..i + 1] == Ids(messages)[..i] + [id];
    }
    assert Ids(messages)[..|messages|] == Ids(messages);
  }

  lemma FullRead(s: Stream, ids: seq<nat>, start: Bound, end: Bound)
    requires Least(ids, InRange(s, start, end), 0) && start == First && end == Last
    ensures forall id :: id in s.entries <==> id in ids
  {
    forall id | id in s.entries ensures id in ids {
      assert id in InRange(s, start, end);
    }
  }

  // finalAttempts: the tally of the dead letters, raised by that of the stream in any order of its files.
  method Merge(dead: map<string, int>, stream: map<string, int>) returns (final: map<string, int>)
    requires forall f :: f in dead ==> dead[f] > 0
    requires forall f :: f in stream ==> stream[f] > 0
    ensures Merged(final, stream, dead)
  {
    final := dead;
    var todo := stream.Keys;
    while todo != {}
      invariant todo <= stream.Keys
      invariant final.Keys == dead.Keys + (stream.Keys - todo)
      invariant forall f :: f in final ==>
        final[f] == if f in stream && f !in todo && f in dead then Greater(stream[f], dead[f])
                    else if f in dead then dead[f] else stream[f]
      decreases todo
    {
      var file :| file in todo;
      todo := todo - {file};
      final := Raise(final, file, stream[file]);
    }
  }

  // ---------------------------------------------------------------- writing the letters out

  // Every letter says exactly max attempts.
  ghost predicate Bounded(letters: map<nat, Body>, max: int) {
    forall d :: d in letters ==> letters[d].attempts == Itoa(max)
  }

  ghost predicate Cleared(cleared: map<nat, Body>, es: map<nat, Body>, file: string) {
    && (forall d :: d in cleared <==> d in es && es[d].file != file)
    && (forall d :: d in cleared ==> cleared[d] == es[d])
  }

  lemma OldLettersAdd(before: Stream, es: map<nat, Body>, cleared: map<nat, Body>, written: set<string>, file: string,
          next: nat, letter: Body)
    requires StreamOk(before) && OldLetters(before, es, written) && Cleared(cleared, es, file) && next > before.lastId
    ensures OldLetters(before, cleared[next := letter], written + {file})
  {
  }

  lemma NewLettersAdd(before: Stream, es: map<nat, Body>, cleared: map<nat, Body>, final: map<string, int>,
                      written: set<string>, max: int,
                      file: string, next: nat)
    requires NewLetters(before, es, final, written, max) && Cleared(cleared, es, file)
    requires next > before.lastId && file in final
    ensures NewLetters(before, cleared[next := Letter(file, final[file], max)], final, written + {file}, max)
  {
  }

  lemma OnePerFileAdds(before: Stream, es: map<nat, Body>, cleared: map<nat, Body>, written: set<string>,
          file: string, next: nat, letter: Body)
    requires OnePerFile(before, es, written) && Cleared(cleared, es, file) && next > before.lastId
    requires letter.file == file && file !in written && (forall d :: d in es ==> d < next)
    ensures OnePerFile(before, cleared[next := letter], written + {file})
  {
    var after := cleared[next := letter];
    forall f | f in written + {file} ensures HasNewLetter(before, after, f) {
      if f == file {
        assert next in after && after[next].file == f;
      } else {
        assert HasNewLetter(before, es, f);
        var d :| d in es && d > before.lastId && es[d].file == f;
        assert d in after && after[d].file == f;
      }
    }
  }

  lemma RewrittenAdds(before: Stream, s: Stream, cleared: map<nat, Body>, final: map<string, int>,
          written: set<string>, max: int, file: string)
    requires StreamOk(before) && StreamOk(s) && before.lastId <= s.lastId
    requires Rewritten(before, s.entries, final, written, max) && file in final && file !in written
    requires Cleared(cleared, s.entries, file)
    ensures Rewritten(before, cleared[s.lastId + 1 := Letter(file, final[file], max)], final, written + {file}, max)
  {
    hide OldLetters, NewLetters, OnePerFile, Cleared;
    OldLettersAdd(before, s.entries, cleared, written, file, s.lastId + 1, Letter(file, final[file], max));
    NewLettersAdd(before, s.entries, cleared, final, written, max, file, s.lastId + 1);
    OnePerFileAdds(before, s.entries, cleared, written, file, s.lastId + 1, Letter(file, final[file], max));
  }

  ghost predicate GainsOnly(s: Stream, s': Stream, letter: Body) {
    forall d :: d in s'.entries ==> (d in s.entries && s'.entries[d] == s.entries[d]) || s'.entries[d] == letter
  }

  lemma StaysBounded(s: Stream, s': Stream, file: string, attempts: int, max: int)
    requires Bounded(s.entries, max) && attempts <= max && GainsOnly(s, s', Letter(file, attempts, max))
    ensures Bounded(s'.entries, max)
  {
  }

  ghost predicate Spares(s: Stream, s': Stream, ids: seq<nat>) {
    forall d :: d in s.entries && d !in ids ==> d in s'.entries && s'.entries[d] == s.entries[d]
  }

  // The ids listed for a file are of letters it has.
  ghost predicate ListsOwn(idsOf: map<string, seq<nat>>, es: map<nat, Body>) {
    forall f, id :: f in idsOf && id in idsOf[f] ==> id in es && es[id].file == f
  }

  // A new letter says exactly this.
  ghost predicate HasNew(before: Stream, after: map<nat, Body>, letter: Body) {
    exists d :: d in after && d > before.lastId && after[d] == letter
  }

  // So far each of these files has its new letter, and the letters of files outside `tried` are as they were.
  ghost predicate Filled(before: Stream, now: Stream, final: map<string, int>, tried: set<string>, missed: set<string>,
                         max: int)
  {
    && before.lastId <= now.lastId && missed <= tried <= final.Keys
    && (forall f :: f in tried - missed ==> HasNew(before, now.entries, Letter(f, final[f], max)))
    && (forall d :: d in before.entries && before.entries[d].file !in tried ==>
          d in now.entries && now.entries[d] == before.entries[d])
  }

  lemma FilledAdds(before: Stream, s: Stream, s': Stream, final: map<string, int>, tried: set<string>,
                   missed: set<string>, file: string, ids: seq<nat>, misses: bool, max: int)
    requires StreamOk(before) && StreamOk(s) && Filled(before, s, final, tried, missed, max) && file in final
    requires forall d :: d in ids ==> d in before.entries && before.entries[d].file == file
    requires s.lastId <= s'.lastId && Spares(s, s', ids)
    requires !misses ==> s' == XAdd(XDel(s, set id | id in ids), Letter(file, final[file], max))
    ensures Filled(before, s', final, tried + {file}, if misses then missed + {file} else missed, max)
  {
    var missed' := if misses then missed + {file} else missed;
    forall f | f in tried + {file} - missed' ensures HasNew(before, s'.entries, Letter(f, final[f], max)) {
      if f == file && !misses {
        assert s.lastId + 1 in s'.entries;
      } else {
        var d :| d in s.entries && d > before.lastId && s.entries[d] == Letter(f, final[f], max);
        assert d in s'.entries;
      }
    }
  }

  // The letters of one file are replaced by a single one; a failing call is only logged.
  method WriteLetter(queue: Valkey, file: string, attempts: int, ids: seq<nat>, max: int, quiet: bool)
    requires queue.Valid() && attempts > 0
    modifies queue
    ensures queue.Valid() && queue.work.entries == old(queue.work).entries && (quiet ==> queue.work == old(queue.work))
    ensures queue.faultsLeft <= old(queue.faultsLeft)
    ensures GainsOnly(old(queue.dlq), queue.dlq, Letter(file, attempts, max))
    ensures queue.faultsLeft == old(queue.faultsLeft) ==>
              queue.dlq == XAdd(XDel(old(queue.dlq), set id | id in ids), Letter(file, attempts, max))
    // Whatever fails, no other letters are touched.
    ensures old(queue.dlq).lastId <= queue.dlq.lastId && Spares(old(queue.dlq), queue.dlq, ids)
  {
    var attempts := attempts;
    if attempts <= 0 || attempts < max {
      attempts := max;
    }
    queue.Claims(quiet);
    if |ids| > 0 {
      var deleted := queue.DeleteMessages(DlqKey, ids);
      if !deleted {
        return;
      }
    } else {
      assert XDel(queue.dlq, set id | id in ids).entries == queue.dlq.entries;
    }
    queue.Claims(quiet);
    var added := queue.AddToDLQ(file, attempts);
  }

  method WriteLetters(queue: Valkey, final: map<string, int>, idsOf: map<string, seq<nat>>, max: int, quiet: bool)
    returns (ghost missed: set<string>)
    requires queue.Valid() && forall f :: f in final ==> final[f] > 0
    modifies queue
    ensures queue.Valid() && queue.work.entries == old(queue.work).entries && (quiet ==> queue.work == old(queue.work))
    ensures queue.faultsLeft <= old(queue.faultsLeft)
    ensures Bounded(old(queue.dlq).entries, max) && (forall f :: f in final ==> final[f] <= max) ==>
              Bounded(queue.dlq.entries, max)
    ensures old(queue.faultsLeft) == 0 && Lists(idsOf, old(queue.dlq).entries, old(queue.dlq).entries.Keys) ==>
              Rewritten(old(queue.dlq), queue.dlq.entries, final, final.Keys, max)
    // A failing call costs at most the letter of one file.
    ensures |missed| + queue.faultsLeft <= old(queue.faultsLeft)
    ensures ListsOwn(idsOf, old(queue.dlq).entries) ==>
              Filled(old(queue.dlq), queue.dlq, final, final.Keys, missed, max)
  {
    hide Rewritten, Lists, Cleared, ListsOwn, Filled, Spares, GainsOnly, Bounded;
    ghost var before := queue.dlq;
    NothingWritten(before, final, max);
    ghost var exact := queue.faultsLeft == 0 && Lists(idsOf, before.entries, before.entries.Keys);
    ghost var bounded := Bounded(before.entries, max) && forall f :: f in final ==> final[f] <= max;
    var todo := final.Keys;
    missed := {};
    ghost var own := ListsOwn(idsOf, before.entries);
    NothingFilled(before, final, max);
    assert final.Keys - todo == {};
    while todo != {}
      invariant todo <= final.Keys
      invariant queue.Valid() && queue.work.entries == old(queue.work).entries
      invariant quiet ==> queue.work == old(queue.work)
      invariant queue.faultsLeft <= old(queue.faultsLeft)
      invariant bounded ==> Bounded(queue.dlq.entries, max)
      invariant |missed| + queue.faultsLeft <= old(queue.faultsLeft)
      invariant own ==> Filled(before, queue.dlq, final, final.Keys - todo, missed, max)
      invariant exact ==> before.lastId <= queue.dlq.lastId
      invariant exact ==> Rewritten(before, queue.dlq.entries, final, final.Keys - todo, max)
      decreases todo
    {
      var file :| file in todo;
      ghost var s := queue.dlq;
      var ids := if file in idsOf then idsOf[file] else [];
      ghost var faults := queue.faultsLeft;
      WriteLetter(queue, file, final[file], ids, max, quiet);
      ghost var misses := queue.faultsLeft < faults;
      if own {
        ListedOwn(idsOf, before.entries, file, ids);
        FilledAdds(before, s, queue.dlq, final, final.Keys - todo, missed, file, ids, misses, max);
      }
      assert final.Keys - todo + {file} == final.Keys - (todo - {file});
      missed := if misses then missed + {file} else missed;
      if exact {
        RewrittenStep(before, s, queue.dlq, final, final.Keys - todo, max, file, idsOf, ids);
      }
      if bounded {
        StaysBounded(s, queue.dlq, file, final[file], max);
      }
      todo := todo - {file};
    }
    assert final.Keys - {} == final.Keys;
  }

  lemma RewrittenStep(before: Stream, s: Stream, s': Stream, final: map<string, int>, written: set<string>, max: int,
                      file: string, idsOf: map<string, seq<nat>>, ids: seq<nat>)
    requires StreamOk(before) && StreamOk(s) && before.lastId <= s.lastId
    requires Rewritten(before, s.entries, final, written, max) && file in final && file !in written
    requires Lists(idsOf, before.entries, before.entries.Keys) && ids == if file in idsOf then idsOf[file] else []
    requires s' == XAdd(XDel(s, set id | id in ids), Letter(file, final[file], max))
    ensures Rewritten(before, s'.entries, final, written + {file}, max)
  {
    hide Rewritten, Lists, Cleared;
    ClearedFile(before, s, final, written, max, file, idsOf, ids);
    RewrittenAdds(before, s, XDel(s, set id | id in ids).entries, final, written, max, file);
  }

  lemma NothingFilled(before: Stream, final: map<string, int>, max: int)
    ensures Filled(before, before, final, {}, {}, max)
  {
  }

  lemma ListedOwn(idsOf: map<string, seq<nat>>, es: map<nat, Body>, file: string, ids: seq<nat>)
    requires ListsOwn(idsOf, es) && ids == if file in idsOf then idsOf[file] else []
    ensures forall d :: d in ids ==> d in es && es[d].file == file
  {
  }

  lemma NothingWritten(before: Stream, final: map<string, int>, max: int)
    requires StreamOk(before)
    ensures Rewritten(before, before.entries, final, {}, max)
  {
  }

  lemma ClearedFile(before: Stream, s: Stream, final: map<string, int>, written: set<string>, max: int, file: string,
                    idsOf: map<string, seq<nat>>, ids: seq<nat>)
    requires Rewritten(before, s.entries, final, written, max) && file !in written
    requires Lists(idsOf, before.entries, before.entries.Keys) && StreamOk(before)
    requires ids == if file in idsOf then idsOf[file] else []
    ensures Cleared(XDel(s, set id | id in ids).entries, s.entries, file)
  {
    forall d | d in s.entries ensures d in ids <==> s.entries[d].file == file {
      if d <= before.lastId {
        assert before.entries[d] == s.entries[d];
      }
    }
  }

  // ---------------------------------------------------------------- the bounds on attempts

  // A work message reads back fewer than max attempts.
  ghost predicate Readable(body: Body, max: int) {
    exists k: nat :: k < max && body.attempts == Itoa(k)
  }

  ghost predicate Within(work: Stream, dlq: Stream, max: int) {
    && StreamOk(work) && StreamOk(dlq)
    && (forall id :: id in work.entries ==> Readable(work.entries[id], max))
    && Bounded(dlq.entries, max)
  }

  ghost predicate Sound(queue: Valkey, max: int)
    reads queue
  {
    queue.Valid() && 1 <= max <= 0x7FFF_FFFF && Within(queue.work, queue.dlq, max)
  }

  lemma ReadsBack(body: Body, max: int, fallback: int)
    requires Readable(body, max) && max <= MAX_INT
    ensures var k := ParseAttempts(body.attempts, fallback); 0 <= k < max && body.attempts == Itoa(k)
  {
    var k: nat :| k < max && body.attempts == Itoa(k);
    ParseAttemptsOfItoa(k, fallback);
  }

  /** What the bounds mean: whatever fallback the reader uses, a work message reads back 0 <= attempts < max and
      a letter exactly max. */
  lemma WithinReads(work: Stream, dlq: Stream, max: int, fallback: int)
    requires Within(work, dlq, max) && 1 <= max <= MAX_INT
    ensures forall id :: id in work.entries ==> 0 <= ParseAttempts(work.entries[id].attempts, fallback) < max
    ensures forall d :: d in dlq.entries ==> ParseAttempts(dlq.entries[d].attempts, fallback) == max
  {
    forall id | id in work.entries ensures 0 <= ParseAttempts(work.entries[id].attempts, fallback) < max {
      ReadsBack(work.entries[id], max, fallback);
    }
    ParseAttemptsOfItoa(max, fallback);
  }

  lemma PartIsWithin(work: Stream, dlq: Stream, left: Stream, letters: Stream, max: int)
    requires Within(work, dlq, max) && Part(left.entries, work.entries) && StreamOk(left) && StreamOk(letters)
    requires Bounded(letters.entries, max)
    ensures Within(left, letters, max)
  {
  }

  // ---------------------------------------------------------------- the whole flush

  ghost predicate Attained(f: string, attempts: int, es: map<nat, Body>, letters: map<nat, Body>, max: int) {
    || (exists id :: Votes(es, es.Keys, false, max, id, f, attempts))
    || (exists d :: Votes(letters, letters.Keys, true, max, d, f, attempts))
  }

  // What the letters must say: per file, the greatest positive attempts among the stream's messages
  // and the letters already there.
  ghost predicate Final(final: map<string, int>, es: map<nat, Body>, letters: map<nat, Body>, max: int) {
    && (forall id :: id in es && Attempts(es[id], max) > 0 ==>
          KeyOf(es[id], false) in final && final[KeyOf(es[id], false)] >= Attempts(es[id], max))
    && (forall d :: d in letters && Attempts(letters[d], max) > 0 ==>
          KeyOf(letters[d], true) in final && final[KeyOf(letters[d], true)] >= Attempts(letters[d], max))
    && (forall f :: f in final ==> final[f] > 0 && Attained(f, final[f], es, letters, max))
  }

  lemma MergedIsFinal(final: map<string, int>, stream: map<string, int>, dead: map<string, int>,
                      es: map<nat, Body>, letters: map<nat, Body>, max: int)
    requires Merged(final, stream, dead)
    requires Tally(stream, es, es.Keys, false, max) && Tally(dead, letters, letters.Keys, true, max)
    ensures Final(final, es, letters, max)
  {
    forall f | f in final
      ensures final[f] > 0 && Attained(f, final[f], es, letters, max)
    {
      if f in stream && final[f] == stream[f] {
        var id :| Votes(es, es.Keys, false, max, id, f, stream[f]);
        assert Votes(es, es.Keys, false, max, id, f, final[f]);
      } else {
        var d :| Votes(letters, letters.Keys, true, max, d, f, dead[f]);
        assert Votes(letters, letters.Keys, true, max, d, f, final[f]);
      }
    }
  }

  lemma TallyAtMost(m: map<string, int>, es: map<nat, Body>, ids: set<nat>, raw: bool, max: int)
    requires Tally(m, es, ids, raw, max) && forall id :: id in es ==> Attempts(es[id], max) <= max
    ensures forall f :: f in m ==> 0 < m[f] <= max
  {
    forall f | f in m ensures 0 < m[f] <= max {
      var id :| Votes(es, ids, raw, max, id, f, m[f]);
    }
  }

  method FlushOutstandingWork(queue: Valkey, max: int, quiet: bool)
    returns (ghost drained: bool, ghost final: map<string, int>, ghost missed: set<string>)
    requires queue.Valid()
    modifies queue
    ensures queue.Valid()
    // Whatever fails, what is left in the stream was there before.
    ensures Part(queue.work.entries, old(queue.work).entries)
    // Whatever fails, attempts stay within their bounds: no letter says anything but max.
    ensures 0 <= max <= MAX_INT && Bounded(old(queue.dlq).entries, max)
            && (forall id :: id in old(queue.work).entries ==> Attempts(old(queue.work).entries[id], max) <= max)
            ==> Bounded(queue.dlq.entries, max)
    // Whatever fails, it gives up only at a failed read, and then no letter has changed; otherwise every message
    // with an attempt that left the stream has its name in the map, and every name of the map its letter, except
    // for at most one for each failing call. Letters of other names stay.
    ensures !drained ==> queue.dlq == old(queue.dlq) && queue.faultsLeft < old(queue.faultsLeft)
    ensures drained ==> Removed(old(queue.work).entries, queue.work.entries, final, max)
    ensures drained ==> Filled(old(queue.dlq), queue.dlq, final, final.Keys, missed, max)
    ensures |missed| + queue.faultsLeft <= old(queue.faultsLeft)
    // With no failing call the stream ends empty and the letters are rewritten, whatever is claimed meanwhile.
    ensures old(queue.faultsLeft) == 0 ==>
              && queue.work.entries == map[]
              && Final(final, old(queue.work).entries, old(queue.dlq).entries, max)
              && Rewritten(old(queue.dlq), queue.dlq.entries, final, final.Keys, max)
    // The pending list ends empty too if nothing is claimed meanwhile.
    ensures quiet && old(queue.faultsLeft) == 0 && AllHaveBodies(old(queue.work)) ==> queue.work.pel == map[]
  {
    hide Tally, Lists, Draining, Rewritten, Final, Merged, Attempts, Part, Outstanding, StreamOk, AllHaveBodies;
    hide ListsOwn, Filled, Removed;
    missed := {};
    ghost var (es, letters) := (queue.work.entries, queue.dlq.entries);
    queue.Claims(quiet);
    var ok, dead, idsOf := ReadExisting(queue, max);
    ghost var read := if ok then letters.Keys else {};
    NothingTallied(queue.work, max);
    var stream: map<string, int> := map[];
    ghost var tallied: set<nat> := {};
    ghost var rounds, stuck;
    stream, tallied, rounds, stuck := DrainPending(queue, max, quiet, stream, es, tallied);
    var ended;
    ended, stream, tallied := DrainStream(queue, max, quiet, stream, es, tallied);
    final := map[];
    DrainedPart(queue.work, es, stream, tallied, max);
    drained := ended;
    if !ended {
      return;
    }
    DrainedTally(queue.work, es, stream, tallied, max);
    TallyPositive(stream, es, tallied, false, max);
    TallyPositive(dead, letters, read, true, max);
    var finalAttempts := Merge(dead, stream);
    final := finalAttempts;
    MergedValues(final, stream, dead);
    if 0 <= max <= MAX_INT && Bounded(letters, max) && forall id :: id in es ==> Attempts(es[id], max) <= max {
      BoundedLetters(letters, max);
      TallyAtMost(stream, es, tallied, false, max);
      TallyAtMost(dead, letters, read, true, max);
    }
    if old(queue.faultsLeft) == 0 {
      MergedIsFinal(final, stream, dead, es, letters, max);
    }
    RemovedAreNamed(queue.work, es, stream, dead, final, tallied, max);
    ListsAreOwn(idsOf, letters, read);
    missed := WriteLetters(queue, finalAttempts, idsOf, max, quiet);
  }

  // The names of the messages that left the stream after at least one attempt.
  ghost predicate Removed(es: map<nat, Body>, left: map<nat, Body>, final: map<string, int>, max: int) {
    forall id :: id in es && id !in left && Attempts(es[id], max) > 0 ==>
      Name(es[id].file) in final && final[Name(es[id].file)] >= Attempts(es[id], max)
  }

  lemma RemovedAreNamed(s: Stream, es: map<nat, Body>, stream: map<string, int>, dead: map<string, int>,
                        final: map<string, int>, tallied: set<nat>, max: int)
    requires Draining(s, es, stream, tallied, max) && Merged(final, stream, dead)
    ensures Removed(es, s.entries, final, max)
  {
    hide Attempts, Part;
    forall id | id in es && id !in s.entries && Attempts(es[id], max) > 0
      ensures Name(es[id].file) in final && final[Name(es[id].file)] >= Attempts(es[id], max)
    {
      assert id in tallied && KeyOf(es[id], false) in stream;
    }
  }

  lemma ListsAreOwn(idsOf: map<string, seq<nat>>, es: map<nat, Body>, ids: set<nat>)
    requires Lists(idsOf, es, ids)
    ensures ListsOwn(idsOf, es)
  {
  }

  // A flush whose calls may fail leaves part of the stream, and letters that say max.
  method FlushWithin(queue: Valkey, max: int, quiet: bool)
    requires Sound(queue, max)
    modifies queue
    ensures Sound(queue, max) && Part(queue.work.entries, old(queue.work).entries)
  {
    ghost var (work, dlq) := (queue.work, queue.dlq);
    WithinReads(work, dlq, max, max);
    ghost var drained, final, missed := FlushOutstandingWork(queue, max, quiet);
    PartIsWithin(work, dlq, queue.work, queue.dlq, max);
  }

  lemma NothingTallied(s: Stream, max: int)
    ensures Draining(s, s.entries, map[], {}, max)
  {
  }

  lemma DrainedPart(s: Stream, es: map<nat, Body>, m: map<string, int>, tallied: set<nat>, max: int)
    requires Draining(s, es, m, tallied, max)
    ensures Part(s.entries, es)
  {
  }

  lemma DrainedTally(s: Stream, es: map<nat, Body>, m: map<string, int>, tallied: set<nat>, max: int)
    requires Draining(s, es, m, tallied, max)
    ensures Tally(m, es, tallied, false, max) && (s.entries == map[] ==> tallied == es.Keys)
  {
  }

  lemma TallyPositive(m: map<string, int>, es: map<nat, Body>, ids: set<nat>, raw: bool, max: int)
    requires Tally(m, es, ids, raw, max)
    ensures forall f :: f in m ==> m[f] > 0
  {
  }

  lemma MergedValues(final: map<string, int>, stream: map<string, int>, dead: map<string, int>)
    requires Merged(final, stream, dead)
    ensures forall f :: f in final ==> (f in stream && final[f] == stream[f]) || (f in dead && final[f] == dead[f])
  {
  }

  lemma BoundedLetters(letters: map<nat, Body>, max: int)
    requires 0 <= max <= MAX_INT && Bounded(letters, max)
    ensures forall d :: d in letters ==> Attempts(letters[d], max) == max
  {
    ParseAttemptsOfItoa(max, max);
  }
}
