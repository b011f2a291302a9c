/** Seeding the work stream: passes that may fail or be stopped anywhere and are simply run again. */
module Initialize {
  import opened Decimal
  import opened Streams
  import opened ValkeyClient
  import opened Protocol

  // The part of the persisted status that initialization reads and writes.
  datatype Status = Status(started: bool, totalFiles: nat)

  datatype Listing = Unavailable | Files(files: seq<string>)

  datatype PassResult = Initialized(hasWork: bool) | PassError | Stopped

  ghost predicate Distinct(files: seq<string>) {
    forall i, j :: 0 <= i < j < |files| ==> files[i] != files[j]
  }

  // Files whose XADD took effect, in order.
  function Kept(files: seq<string>, took: seq<bool>): (kept: seq<string>)
    requires |took| <= |files|
    ensures |kept| <= |took|
  {
    if took == [] then []
    else
      var n := |took| - 1;
      Kept(files, took[..n]) + if took[n] then [files[n]] else []
  }

  // The stream after enqueuing these files once each.
  function StreamOf(files: seq<string>): Stream {
    if files == [] then EMPTY
    else XAdd(StreamOf(files[..|files| - 1]), Body(files[|files| - 1], Itoa(0)))
  }

  lemma {:induction false} StreamOfFacts(files: seq<string>)
    ensures StreamOk(StreamOf(files)) && Fresh(StreamOf(files)) && StreamOf(files).lastId == |files|
    ensures |StreamOf(files).entries| == |files|
    ensures forall id :: id in StreamOf(files).entries ==> StreamOf(files).entries[id].file == files[id - 1]
  {
    if files != [] {
      StreamOfFacts(files[..|files| - 1]);
    }
  }

  lemma {:induction false} KeptFromFiles(files: seq<string>, took: seq<bool>)
    requires |took| <= |files|
    ensures forall f :: f in Kept(files, took) ==> f in files[..|took|]
  {
    if took != [] {
      var n := |took| - 1;
      KeptFromFiles(files, took[..n]);
      assert files[..n + 1] == files[..n] + [files[n]];
    }
  }

  lemma {:induction false} KeptDistinct(files: seq<string>, took: seq<bool>)
    requires |took| <= |files| && Distinct(files)
    ensures Distinct(Kept(files, took))
  {
    if took != [] {
      var n := |took| - 1;
      KeptDistinct(files, took[..n]);
      KeptFromFiles(files, took[..n]);
      var kept := Kept(files, took[..n]);
      forall k | 0 <= k < |kept| ensures kept[k] != files[n] {
        assert kept[k] in files[..n];
      }
    }
  }

  lemma {:induction false} KeptAll(files: seq<string>, took: seq<bool>)
    requires |took| <= |files| && forall i :: 0 <= i < |took| ==> took[i]
    ensures Kept(files, took) == files[..|took|]
  {
    if took != [] {
      KeptAll(files, took[..|took| - 1]);
    }
  }

  lemma {:induction false} KeptIff(files: seq<string>, took: seq<bool>, i: nat)
    requires |took| <= |files| && Distinct(files) && i < |files|
    ensures files[i] in Kept(files, took) <==> i < |took| && took[i]
  {
    if took != [] {
      var n := |took| - 1;
      KeptIff(files, took[..n], i);
      if i != n {
        assert files[i] != files[n];
      }
    }
  }

  lemma {:induction false} KeptLength(files: seq<string>, took: seq<bool>)
    requires |took| <= |files|
    ensures |Kept(files, took)| == |took| <==> forall i :: 0 <= i < |took| ==> took[i]
  {
    if took != [] {
      KeptLength(files, took[..|took| - 1]);
    }
  }

  ghost predicate Holds(s: Stream, file: string) {
    exists id :: id in s.entries && s.entries[id].file == file
  }

  ghost predicate AllListed(s: Stream, files: seq<string>) {
    forall i :: 0 <= i < |files| ==> Holds(s, files[i])
  }

  // The stream after a seeding of these files in which any of the XADDs may have been lost.
  ghost predicate SeededFrom(s: Stream, files: seq<string>) {
    exists took: seq<bool> :: |took| <= |files| && s == StreamOf(Kept(files, took))
  }

  lemma StreamHolds(files: seq<string>, file: string)
    ensures Holds(StreamOf(files), file) <==> file in files
  {
    StreamOfFacts(files);
    if file in files {
      var k :| 0 <= k < |files| && files[k] == file;
      assert k + 1 in StreamOf(files).entries;
    }
  }

  /** "Every listed file has a message" holds of a seeding if and only if the length read back afterwards is
      the number of files listed. The code compares that length with 0 only. */
  lemma SeedingIsCompleteIff(s: Stream, files: seq<string>)
    requires SeededFrom(s, files) && Distinct(files)
    ensures AllListed(s, files) <==> |s.entries| == |files|
  {
    var took: seq<bool> :| |took| <= |files| && s == StreamOf(Kept(files, took));
    StreamOfFacts(Kept(files, took));
    KeptLength(files, took);
    forall i | 0 <= i < |files| ensures Holds(s, files[i]) <==> i < |took| && took[i] {
      StreamHolds(Kept(files, took), files[i]);
      KeptIff(files, took, i);
    }
    if |took| < |files| {
      assert !Holds(s, files[|took|]);
    }
  }

  /** The input that shows it can fail: two files, the second XADD lost. */
  lemma PartialSeeding(a: string, b: string)
    requires a != b
    ensures var s := XAdd(EMPTY, Body(a, Itoa(0)));
      SeededFrom(s, [a, b]) && |s.entries| == 1 && Holds(s, a) && !Holds(s, b)
  {
    var s := XAdd(EMPTY, Body(a, Itoa(0)));
    assert Kept([a, b], []) == [];
    assert [true, false][..1] == [true] && [true][..0] == [];
    assert Kept([a, b], [true]) == [a] && Kept([a, b], [true, false]) == [a];
    assert [a][..0] == [] && StreamOf([a]) == s;
    StreamHolds([a], a);
    StreamHolds([a], b);
  }

  lemma NothingListed(s: Stream)
    ensures AllListed(s, []) && StreamOf([]) == EMPTY
  {
  }

  ghost predicate FromListing(listings: seq<Listing>, files: seq<string>) {
    exists k :: 0 <= k < |listings| && listings[k] == Files(files)
  }

  class Instance {
    const queue: Valkey
    const reliable: bool   // the controller is not stopped, and writing the status does not fail
    var status: Status

    constructor (queue: Valkey, reliable: bool)
      requires queue.work == EMPTY && queue.Valid()
      ensures this.queue == queue && this.reliable == reliable && Valid() && !status.started
    {
      this.queue, this.reliable := queue, reliable;
      status := Status(false, 0);
    }

    // Until the start is recorded nothing consumes the stream, and it holds distinct first attempts.
    ghost predicate Valid()
      reads this, queue
    {
      && queue.Valid()
      && (if status.started then queue.hasGroup else Seedling(queue.work))
    }

    ghost predicate Seedling(s: Stream) {
      Fresh(s) && forall i, j :: i in s.entries && j in s.entries && s.entries[i].file == s.entries[j].file ==> i == j
    }

    lemma StreamOfDistinct(files: seq<string>)
      requires Distinct(files)
      ensures Seedling(StreamOf(files)) && StreamOk(StreamOf(files)) && |StreamOf(files).entries| == |files|
    {
      StreamOfFacts(files);
    }

    // Writing the status may fail, with or without effect.
    method UpdateStatus(next: Status) returns (ok: bool)
      modifies this`status
      ensures status == next || (!ok && status == old(status))
      ensures reliable ==> ok
    {
      ok := *;
      ok := ok || reliable;
      var written: bool := *;
      if ok || written {
        status := next;
      }
    }

    method SeedFiles(files: seq<string>) returns (stopped: bool, successful: nat, ghost took: seq<bool>)
      requires queue.Valid() && queue.work == EMPTY
      modifies queue`work, queue`dlq, queue`faultsLeft, queue`idle
      ensures queue.Valid() && |took| <= |files| && (!stopped ==> |took| == |files|)
      ensures queue.work == StreamOf(Kept(files, took)) && queue.dlq == old(queue.dlq)
      ensures SeededFrom(queue.work, files)
      ensures Distinct(files) ==> (AllListed(queue.work, files) <==> |queue.work.entries| == |files|)
      ensures queue.faultsLeft <= old(queue.faultsLeft)
      ensures reliable ==> !stopped
      ensures old(queue.faultsLeft) == 0 ==> successful == |took| && forall i :: 0 <= i < |took| ==> took[i]
    {
      stopped, successful, took := false, 0, [];
      assert StreamOf(Kept(files, [])) == EMPTY;
      for i := 0 to |files|
        invariant queue.Valid() && |took| == i && queue.work == StreamOf(Kept(files, took))
        invariant queue.dlq == old(queue.dlq)
        invariant queue.faultsLeft <= old(queue.faultsLeft) && !stopped
        invariant old(queue.faultsLeft) == 0 ==> successful == i && forall k :: 0 <= k < i ==> took[k]
      {
        stopped := *;
        stopped := stopped && !reliable;
        if stopped {
          break;
        }
        ghost var kept := Kept(files, took);
        var ok := queue.EnqueueFileWithAttempts(files[i], 0);
        ghost var added := queue.work != StreamOf(kept);
        assert (took + [added])[..i] == took;
        assert (kept + [files[i]])[..|kept|] == kept;
        assert Kept(files, took + [added]) == if added then kept + [files[i]] else kept;
        took := took + [added];
        if ok {
          successful := successful + 1;
        }
      }
      if Distinct(files) {
        SeedingIsCompleteIff(queue.work, files);
      }
    }

    // One pass. `stop` anywhere stands for the controller being stopped there.
    method InitializePipelineInstance(listing: Listing) returns (result: PassResult)
      requires Valid() && (listing.Files? ==> Distinct(listing.files))
      modifies this`status, queue
      ensures Valid() && queue.faultsLeft <= old(queue.faultsLeft) && queue.dlq == old(queue.dlq)
      // Once the start is recorded, no pass changes the total or touches the stream.
      ensures old(status).started ==> status == old(status) && queue.work == old(queue.work)
      ensures old(status).started ==> result == Initialized(status.totalFiles != 0)
      // A start is recorded with the length of the stream, which is still untouched and without doubles.
      ensures !old(status).started && status.started ==>
                status.totalFiles == |queue.work.entries| && Seedling(queue.work)
      // Every file of the listing has a message iff the recorded total is their number.
      ensures !old(status).started && status.started && old(queue.work) == EMPTY && listing.Files? ==>
                (AllListed(queue.work, listing.files) <==> status.totalFiles == |listing.files|)
      ensures old(queue.work) == EMPTY && queue.work != EMPTY ==>
                listing.Files? && SeededFrom(queue.work, listing.files)
      // Files are listed and enqueued only into an empty stream.
      ensures old(queue.work).entries != map[] ==> queue.work == old(queue.work)
      ensures result.Initialized? ==> status.started && result.hasWork == (status.totalFiles != 0)
      // A first pass without failing calls seeds exactly the listing.
      ensures !old(status).started && old(queue.work) == EMPTY && old(queue.faultsLeft) == 0 ==>
                (result.Initialized? && listing.Files? ==> queue.work == StreamOf(listing.files))
      // Nothing failing, a pass gives up only on an empty stream whose files cannot be listed.
      ensures reliable && old(queue.faultsLeft) == 0 ==>
                result == if !old(status).started && old(queue.work) == EMPTY && listing.Unavailable? then PassError
                          else Initialized(status.totalFiles != 0)
    {
      hide SeededFrom, AllListed, Distinct, StreamOf, Kept;
      if status.started {
        return Initialized(status.totalFiles != 0);
      }
      var ok := queue.CreateStreamAndGroup();
      if !ok {
        return PassError;
      }
      var length;
      ok, length := queue.GetStreamLength(WorkKey);
      if !ok {
        return PassError;
      }
      if length == 0 {
        EmptyIsEmpty(queue.work);
        match listing
        case Unavailable => return PassError;
        case Files(files) =>
          if |files| == 0 {
            NothingListed(queue.work);
            ok := UpdateStatus(Status(true, 0));
            return if ok then Initialized(false) else PassError;
          }
          var stopped, successful, took := SeedFiles(files);
          KeptDistinct(files, took);
          StreamOfDistinct(Kept(files, took));
          if old(queue.faultsLeft) == 0 && !stopped {
            KeptAll(files, took);
            assert files[..|took|] == files;
          }
          if stopped {
            return Stopped;
          }
          ok, length := queue.GetStreamLength(WorkKey);
          if !ok {
            return PassError;
          }
          if length == 0 || successful == 0 {
            return PassError;
          }
      }
      var stop: bool := *;
      if stop && !reliable {
        return Stopped;
      }
      ok := UpdateStatus(Status(true, length));
      result := if ok then Initialized(true) else PassError;
    }

    // Any sequence of passes, whatever each of them meets. `files` is the listing the stream was seeded from.
    method Passes(listings: seq<Listing>) returns (ghost files: seq<string>)
      requires Valid() && forall i :: 0 <= i < |listings| && listings[i].Files? ==> Distinct(listings[i].files)
      modifies this`status, queue
      ensures Valid() && queue.faultsLeft <= old(queue.faultsLeft) && queue.dlq == old(queue.dlq)
      ensures !old(status).started ==> Seedling(queue.work)
      ensures !old(status).started && status.started ==> status.totalFiles == |queue.work.entries|
      // What one pass seeded is final: no later listing adds to it, and a start is recorded once.
      ensures old(queue.work).entries != map[] ==> queue.work == old(queue.work)
      ensures old(status).started ==> status == old(status) && queue.work == old(queue.work)
      // The messages come from one listing, and are all of it iff the total is its length.
      ensures old(queue.work) == EMPTY && queue.work != EMPTY ==>
                && FromListing(listings, files) && SeededFrom(queue.work, files)
                && (status.started ==> (AllListed(queue.work, files) <==> status.totalFiles == |files|))
      ensures old(queue.work) == EMPTY && queue.work != EMPTY && reliable && old(queue.faultsLeft) == 0 ==>
                queue.work == StreamOf(files)
    {
      hide SeededFrom, AllListed, Distinct;
      files := [];
      for i := 0 to |listings|
        invariant Valid() && queue.faultsLeft <= old(queue.faultsLeft) && queue.dlq == old(queue.dlq)
        invariant !old(status).started ==> Seedling(queue.work)
        invariant !old(status).started && status.started ==> status.totalFiles == |queue.work.entries|
        invariant old(queue.work).entries != map[] ==> queue.work == old(queue.work)
        invariant old(status).started ==> status == old(status) && queue.work == old(queue.work)
        invariant old(queue.work) == EMPTY && queue.work != EMPTY ==>
          FromListing(listings, files) && Distinct(files) && SeededFrom(queue.work, files)
        invariant old(queue.work) == EMPTY && queue.work != EMPTY && reliable && old(queue.faultsLeft) == 0 ==>
          queue.work == StreamOf(files)
      {
        ghost var before := queue.work;
        if !status.started && before.entries == map[] {
          EmptyIsEmpty(before);
        }
        var result := InitializePipelineInstance(listings[i]);
        if before == EMPTY && queue.work != EMPTY {
          files := listings[i].files;
          assert FromListing(listings, files);
        }
      }
      if old(queue.work) == EMPTY && queue.work != EMPTY {
        SeedingIsCompleteIff(queue.work, files);
      }
    }
  }

  lemma EmptyIsEmpty(s: Stream)
    requires Fresh(s) && |s.entries| == 0
    ensures s == EMPTY
  {
    assert s.lastId > 0 ==> s.lastId in s.entries;
  }
}
