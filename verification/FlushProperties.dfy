/** What a fault-free flush does to every file: which files end up dead-lettered, that the result depends
    on nothing but the two streams, and that flushing again changes nothing. */
module FlushProperties {
  import opened Decimal
  import opened Streams
  import opened Protocol
  import opened Flush

  // The outcome of a flush of the messages es over the letters of `before`.
  ghost predicate Flushed(es: map<nat, Body>, before: Stream, after: map<nat, Body>, final: map<string, int>, max: int)
  {
    && StreamOk(before)
    && Final(final, es, before.entries, max)
    && Rewritten(before, after, final, final.Keys, max)
  }

  ghost predicate HasLetter(letters: map<nat, Body>, file: string) {
    exists d :: d in letters && letters[d].file == file
  }

  // Some message under this name was attempted.
  ghost predicate Attempted(es: map<nat, Body>, file: string, max: int) {
    exists id :: id in es && Name(es[id].file) == file && Attempts(es[id], max) > 0
  }

  // The greatest positive attempts among the messages and letters of a file.
  ghost predicate Greatest(es: map<nat, Body>, letters: map<nat, Body>, file: string, a: int, max: int) {
    && Attained(file, a, es, letters, max)
    && (forall id :: id in es && Name(es[id].file) == file ==> Attempts(es[id], max) <= a)
    && (forall d :: d in letters && letters[d].file == file ==> Attempts(letters[d], max) <= a)
  }

  // Some message or letter under this name counts at least one attempt.
  ghost predicate Counted(es: map<nat, Body>, letters: map<nat, Body>, file: string, max: int) {
    Attempted(es, file, max) || exists d :: d in letters && letters[d].file == file && Attempts(letters[d], max) > 0
  }

  // The name has this letter and no other.
  ghost predicate OnlyLetter(letters: map<nat, Body>, file: string, letter: Body) {
    exists d :: d in letters && letters[d] == letter && forall e :: e in letters && letters[e].file == file ==> e == d
  }

  lemma FinalKeys(es: map<nat, Body>, before: Stream, after: map<nat, Body>, final: map<string, int>,
          max: int, file: string)
    requires Flushed(es, before, after, final, max)
    ensures file in final <==> Counted(es, before.entries, file, max)
    ensures file in final ==> Greatest(es, before.entries, file, final[file], max)
  {
    if file in final {
      if id :| Votes(es, es.Keys, false, max, id, file, final[file]) {
        assert id in es && Name(es[id].file) == file && Attempts(es[id], max) > 0;
      } else {
        var d :| Votes(before.entries, before.entries.Keys, true, max, d, file, final[file]);
        assert d in before.entries && before.entries[d].file == file;
      }
    }
  }

  /** After a flush a name is dead-lettered iff it already was, or the stream held a message under it
      with at least one attempt. */
  lemma FlushDeadLetters(es: map<nat, Body>, before: Stream, after: map<nat, Body>, final: map<string, int>, max: int,
          file: string)
    requires Flushed(es, before, after, final, max)
    ensures HasLetter(after, file) <==> HasLetter(before.entries, file) || Attempted(es, file, max)
  {
    FinalKeys(es, before, after, final, max, file);
    if file in final {
      assert HasNewLetter(before, after, file);
    } else {
      forall d | d in after && after[d].file == file ensures d in before.entries && before.entries[d].file == file {
      }
      forall d | d in before.entries && before.entries[d].file == file ensures d in after && after[d].file == file {
      }
    }
  }

  /** Every name that counts an attempt, in the stream or in its letters, ends with exactly one letter, and
      the letter says max(maxAttempts, greatest attempts seen). */
  lemma FlushWritesOneLetter(es: map<nat, Body>, before: Stream, after: map<nat, Body>, final: map<string, int>,
          max: int, file: string)
    requires Flushed(es, before, after, final, max) && Counted(es, before.entries, file, max)
    ensures exists a :: Greatest(es, before.entries, file, a, max)
                        && OnlyLetter(after, file, Body(file, Itoa(if a > max then a else max)))
  {
    FinalKeys(es, before, after, final, max, file);
    assert HasNewLetter(before, after, file);
    var d :| d in after && d > before.lastId && after[d].file == file;
    assert after[d] == Letter(file, final[file], max);
    forall e | e in after && after[e].file == file ensures e == d {
    }
    assert OnlyLetter(after, file, Letter(file, final[file], max));
  }

  /** A message whose attempts cannot be read counts as exhausted: its file is always dead-lettered, and under the
      name "<unknown>" when it has none. */
  lemma FlushKeepsUnreadable(es: map<nat, Body>, before: Stream, after: map<nat, Body>, final: map<string, int>,
          max: int, id: nat)
    requires Flushed(es, before, after, final, max) && id in es && !IsNumeral(es[id].attempts) && max > 0
    ensures HasLetter(after, if es[id].file == "" then "<unknown>" else es[id].file)
  {
    UnreadableIsFallback(es[id].attempts, max);
    FlushDeadLetters(es, before, after, final, max, Name(es[id].file));
  }

  /** Moving all outstanding work to the dead letter queue: a flush does so if and only if every message
      in the stream was attempted, or its name was already dead, or was attempted under another message. */
  lemma FlushIsCompleteIff(es: map<nat, Body>, before: Stream, after: map<nat, Body>, final: map<string, int>, max: int)
    requires Flushed(es, before, after, final, max)
    ensures (forall id :: id in es ==> HasLetter(after, Name(es[id].file)))
       <==> (forall id :: id in es ==>
               HasLetter(before.entries, Name(es[id].file)) || Attempted(es, Name(es[id].file), max))
  {
    forall id | id in es
      ensures HasLetter(after, Name(es[id].file)) <==>
              HasLetter(before.entries, Name(es[id].file)) || Attempted(es, Name(es[id].file), max)
    {
      FlushDeadLetters(es, before, after, final, max, Name(es[id].file));
    }
  }

  /** The input that shows it: a run flushed before its only file was ever retried leaves no letter. */
  lemma FlushDropsUntriedFile(after: map<nat, Body>, final: map<string, int>)
    requires Flushed(map[1 := Body("a", Itoa(0))], EMPTY, after, final, 3)
    ensures after == map[]
  {
    var es := map[1 := Body("a", Itoa(0))];
    ParseAttemptsOfItoa(0, 3);
    forall file ensures !HasLetter(after, file) {
      FlushDeadLetters(es, EMPTY, after, final, 3, file);
    }
    forall d ensures d !in after {
      if d in after {
        assert HasLetter(after, after[d].file);
        assert false;
      }
    }
  }

  // The names of the attempted messages that left the stream and have no letter.
  function Unrecorded(es: map<nat, Body>, left: map<nat, Body>, letters: map<nat, Body>, max: int): set<string> {
    set id | id in es && id !in left && Attempts(es[id], max) > 0
             && (forall d :: d in letters ==> letters[d].file != Name(es[id].file)) :: Name(es[id].file)
  }

  /** A flush that does not give up loses no more names than calls fail while the letters are written. */
  lemma FlushMissesFew(es: map<nat, Body>, left: map<nat, Body>, before: Stream, after: Stream,
                       final: map<string, int>, missed: set<string>, max: int)
    requires Removed(es, left, final, max) && Filled(before, after, final, final.Keys, missed, max)
    ensures Unrecorded(es, left, after.entries, max) <= missed
    ensures |Unrecorded(es, left, after.entries, max)| <= |missed|
  {
    forall f | f in Unrecorded(es, left, after.entries, max) ensures f in missed {
      assert f in final && !HasNew(before, after.entries, Letter(f, final[f], max));
    }
    Subset(Unrecorded(es, left, after.entries, max), missed);
  }

  // ---------------------------------------------------------------- order and repetition

  // The letters saying exactly this.
  function Copies(letters: map<nat, Body>, letter: Body): set<nat> {
    set d | d in letters && letters[d] == letter
  }

  lemma FinalUnique(f1: map<string, int>, f2: map<string, int>, es: map<nat, Body>, letters: map<nat, Body>, max: int)
    requires Final(f1, es, letters, max) && Final(f2, es, letters, max)
    ensures f1 == f2
  {
    FinalBelow(f1, f2, es, letters, max);
    FinalBelow(f2, f1, es, letters, max);
  }

  lemma FinalBelow(f1: map<string, int>, f2: map<string, int>, es: map<nat, Body>, letters: map<nat, Body>, max: int)
    requires Final(f1, es, letters, max) && Final(f2, es, letters, max)
    ensures forall f :: f in f1 ==> f in f2 && f1[f] <= f2[f]
  {
    forall f | f in f1 ensures f in f2 && f1[f] <= f2[f] {
      if id :| Votes(es, es.Keys, false, max, id, f, f1[f]) {
      } else {
        var d :| Votes(letters, letters.Keys, true, max, d, f, f1[f]);
      }
    }
  }

  // How many letters of each kind a flush leaves.
  lemma CopiesAfter(before: Stream, after: map<nat, Body>, final: map<string, int>, max: int, letter: Body)
    requires StreamOk(before) && Rewritten(before, after, final, final.Keys, max)
    ensures |Copies(after, letter)| ==
              if letter.file in final then (if letter == Letter(letter.file, final[letter.file], max) then 1 else 0)
              else |Copies(before.entries, letter)|
  {
    var copies := Copies(after, letter);
    if letter.file in final {
      assert HasNewLetter(before, after, letter.file);
      var d :| d in after && d > before.lastId && after[d].file == letter.file;
      if letter == Letter(letter.file, final[letter.file], max) {
        assert copies == {d};
      } else {
        assert copies == {};
      }
    } else {
      assert copies == Copies(before.entries, letter);
    }
  }

  /** The flush is independent of the order in which its maps are walked: any two outcomes hold the same
      letters, each the same number of times. */
  lemma FlushIsDetermined(es: map<nat, Body>, before: Stream, after1: map<nat, Body>, after2: map<nat, Body>,
                          final1: map<string, int>, final2: map<string, int>, max: int, letter: Body)
    requires Flushed(es, before, after1, final1, max) && Flushed(es, before, after2, final2, max)
    ensures |Copies(after1, letter)| == |Copies(after2, letter)|
  {
    FinalUnique(final1, final2, es, before.entries, max);
    CopiesAfter(before, after1, final1, max, letter);
    CopiesAfter(before, after2, final2, max, letter);
  }

  // Attempts that were read are machine integers.
  lemma FinalFits(final: map<string, int>, es: map<nat, Body>, letters: map<nat, Body>, max: int)
    requires Final(final, es, letters, max) && max <= MAX_INT
    ensures forall g :: g in final ==> final[g] <= MAX_INT
  {
    forall g | g in final ensures final[g] <= MAX_INT {
      if id :| Votes(es, es.Keys, false, max, id, g, final[g]) {
        assert Attempts(es[id], max) <= MAX_INT;
      } else {
        var d :| Votes(letters, letters.Keys, true, max, d, g, final[g]);
        assert Attempts(letters[d], max) <= MAX_INT;
      }
    }
  }

  // A letter that the first flush wrote, as the second one reads it.
  lemma NewLetterReads(before: Stream, after: map<nat, Body>, final: map<string, int>, max: int, d: nat)
    requires Rewritten(before, after, final, final.Keys, max) && d in after && after[d].file in final
    requires 1 <= max <= MAX_INT && (forall g :: g in final ==> final[g] <= MAX_INT)
    ensures d > before.lastId && Attempts(after[d], max) == Greater(final[after[d].file], max)
  {
    ParseAttemptsOfItoa(Greater(final[after[d].file], max), max);
  }

  // What a second flush finds: the letters of the first, and an empty stream.
  lemma SecondFinal(es: map<nat, Body>, before: Stream, mid: Stream, final: map<string, int>, again: map<string, int>,
          max: int, f: string)
    requires Flushed(es, before, mid.entries, final, max) && Final(again, map[], mid.entries, max)
    requires 1 <= max <= MAX_INT && (forall g :: g in final ==> final[g] <= MAX_INT)
    ensures f in final ==> f in again && again[f] == Greater(final[f], max)
    ensures f in again ==> f in final
  {
    if f in final {
      assert HasNewLetter(before, mid.entries, f);
      var d :| d in mid.entries && d > before.lastId && mid.entries[d].file == f;
      hide OldLetters, OnePerFile;
      NewLetterReads(before, mid.entries, final, max, d);
    }
    if f in again {
      hide Rewritten;
      var e :| Votes(mid.entries, mid.entries.Keys, true, max, e, f, again[f]);
      PositiveIsFinal(es, before, mid.entries, final, max, e);
      NewLetterReads(before, mid.entries, final, max, e);
    }
  }

  lemma PositiveIsFinal(es: map<nat, Body>, before: Stream, after: map<nat, Body>, final: map<string, int>,
          max: int, e: nat)
    requires Flushed(es, before, after, final, max) && e in after && Attempts(after[e], max) > 0
    ensures after[e].file in final
  {
    if after[e].file !in final {
      OldLetter(before, after, final, max, e);
    }
  }

  lemma OldLetter(before: Stream, after: map<nat, Body>, final: map<string, int>, max: int, e: nat)
    requires Rewritten(before, after, final, final.Keys, max) && e in after && after[e].file !in final
    ensures e in before.entries && before.entries[e] == after[e]
  {
  }

  /** Flushing twice is flushing once: a second fault-free flush leaves the same letters. */
  lemma FlushIsIdempotent(es: map<nat, Body>, before: Stream, mid: Stream, end: map<nat, Body>,
                          final: map<string, int>, again: map<string, int>, max: int, letter: Body)
    requires Flushed(es, before, mid.entries, final, max) && Flushed(map[], mid, end, again, max)
    requires 1 <= max <= MAX_INT
    ensures |Copies(end, letter)| == |Copies(mid.entries, letter)|
  {
    FinalFits(final, es, before.entries, max);
    SecondFinal(es, before, mid, final, again, max, letter.file);
    CopiesAfter(before, mid.entries, final, max, letter);
    CopiesAfter(mid, end, again, max, letter);
  }

  // ---------------------------------------------------------------- flushing a run

  // How the flush reads the messages of a run.
  lemma RunMessagesRead(w: World, max: int)
    requires StreamOk(w.work) && ItemsOk(w) && AttemptsOk(w, max)
    ensures forall id :: id in w.work.entries ==>
      id in w.past.items && w.work.entries[id].file == w.past.items[id].file
      && Attempts(w.work.entries[id], max) == w.past.items[id].attempts
  {
    forall id | id in w.work.entries
      ensures id in w.past.items && w.work.entries[id].file == w.past.items[id].file
      ensures Attempts(w.work.entries[id], max) == w.past.items[id].attempts
    {
      ParseAttemptsOfItoa(w.past.items[id].attempts, max);
    }
  }

  // Some message left in the stream under this name carries an attempt.
  ghost predicate RetriedInStream(w: World, file: string) {
    exists id :: id in w.work.entries && id in w.past.items
                 && Name(w.past.items[id].file) == file && w.past.items[id].attempts > 0
  }

  // A flush of the run's last state: which files have a letter, and what it says.
  ghost predicate FlushedRun(end: World, after: map<nat, Body>, file: string, max: int) {
    && (HasLetter(after, file) <==> HasLetter(end.dlq.entries, file) || RetriedInStream(end, file))
    && (HasLetter(after, file) ==> OnlyLetter(after, file, Body(file, Itoa(max))))
  }

  /** In a run, flushing keeps exactly what was written off at least once: a name ends in the dead letter
      queue iff it was dead already or some message under it left in the stream carries an attempt, and then
      with one letter that says exactly max. Files never retried vanish, and finished files that needed a
      retry become dead letters. */
  lemma FlushOfRun(w: World, run: seq<Label>, max: int, after: map<nat, Body>, final: map<string, int>, file: string)
    requires Seeded(w, max) && Legal(w, run, max)
    requires Flushed(Exec(w, run).work.entries, Exec(w, run).dlq, after, final, max)
    ensures FlushedRun(Exec(w, run), after, file, max)
  {
    hide Seeded, Legal, Exec, Flushed, HasLetter, Attempts, Greatest, OnlyLetter, OwnersOk, PodsOk, BodiesOk, SettledOk;
    var end := Exec(w, run);
    SeededInv(w, max);
    RunInv(w, run, max);
    FlushDeadLetters(end.work.entries, end.dlq, after, final, max, file);
    RunMessagesRead(end, max);
    RunLettersRead(end, max);
    if HasLetter(after, file) {
      LetterCounts(end, max, file);
      FlushWritesOneLetter(end.work.entries, end.dlq, after, final, max, file);
      var a :| Greatest(end.work.entries, end.dlq.entries, file, a, max)
               && OnlyLetter(after, file, Body(file, Itoa(if a > max then a else max)));
      GreatestInRun(end, max, file, a);
    }
  }

  lemma RunLettersRead(w: World, max: int)
    requires AttemptsOk(w, max)
    ensures forall d :: d in w.dlq.entries ==> Attempts(w.dlq.entries[d], max) == max >= 1
  {
    ParseAttemptsOfItoa(max, max);
  }

  lemma LetterCounts(w: World, max: int, file: string)
    requires HasLetter(w.dlq.entries, file) || Attempted(w.work.entries, file, max)
    requires forall d :: d in w.dlq.entries ==> Attempts(w.dlq.entries[d], max) == max >= 1
    ensures Counted(w.work.entries, w.dlq.entries, file, max)
  {
  }

  lemma GreatestInRun(w: World, max: int, file: string, a: int)
    requires Greatest(w.work.entries, w.dlq.entries, file, a, max) && AttemptsOk(w, max)
    requires forall d :: d in w.dlq.entries ==> Attempts(w.dlq.entries[d], max) == max
    requires forall id :: id in w.work.entries ==>
      id in w.past.items && Attempts(w.work.entries[id], max) == w.past.items[id].attempts
    ensures a <= max
  {
  }
}
