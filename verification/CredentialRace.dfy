/** Ensuring a namespace's credentials while they are cleaned up: the overlaps that leave an ACL user without the
    secret's password.

    An ensure reads the secret, or creates it, and sets the user's password later; a cleanup deletes the user and
    then the secret. Any number of either overlap: two instances deleted at once both clean up. Every password
    created gets a number of its own, its generation. */
module CredentialRace {
  import opened Decimal

  datatype State = State(
    secret: Option<nat>,    // generation of the password in the secret
    created: nat,           // passwords created so far
    user: Option<nat>,      // generation of the ACL user's password
    held: map<nat, nat>,    // what each running ensure has read or created
    cut: nat)               // passwords created before the last deletion of the secret

  datatype Event = Obtain(ensure: nat) | SetUser(ensure: nat) | DeleteUser | DeleteSecret

  const NONE := State(None, 0, None, map[], 0)

  predicate Possible(s: State, e: Event) {
    match e
    case SetUser(i) => i in s.held
    case _ => true
  }

  function Next(s: State, e: Event): State {
    match e
    case Obtain(i) =>
      if s.secret.Some? then s.(held := s.held[i := s.secret.value])
      else s.(secret := Some(s.created), created := s.created + 1, held := s.held[i := s.created])
    case SetUser(i) => if i in s.held then s.(user := Some(s.held[i])) else s
    case DeleteUser => s.(user := None)
    case DeleteSecret => s.(secret := None, cut := s.created)
  }

  function After(run: seq<Event>): State {
    if run == [] then NONE else Next(After(run[..|run| - 1]), run[|run| - 1])
  }

  ghost predicate Legal(run: seq<Event>) {
    run != [] ==> Legal(run[..|run| - 1]) && Possible(After(run[..|run| - 1]), run[|run| - 1])
  }

  // An ACL user exists only while the secret does, and with its password.
  predicate Agreed(s: State) {
    s.user.Some? ==> s.secret == s.user
  }

  // Obtained before the last deletion of the secret.
  predicate Stale(s: State, password: nat) {
    password < s.cut
  }

  // Only the secret's password was created since its last deletion.
  ghost predicate Numbered(s: State) {
    && (if s.secret.Some? then s.cut == s.secret.value && s.created == s.cut + 1 else s.cut == s.created)
    && (forall i :: i in s.held ==> s.held[i] < s.created)
    && (s.user.Some? ==> s.user.value < s.created)
  }

  lemma {:induction false} RunIsNumbered(run: seq<Event>)
    requires Legal(run)
    ensures Numbered(After(run))
  {
    if run != [] {
      RunIsNumbered(run[..|run| - 1]);
    }
  }

  /** In every reachable state, under any overlap of ensures and cleanups, the user disagrees with the secret if
      and only if its password was obtained before the secret was last deleted. */
  lemma AgreementIff(run: seq<Event>)
    requires Legal(run)
    ensures var s := After(run); !Agreed(s) <==> s.user.Some? && Stale(s, s.user.value)
  {
    RunIsNumbered(run);
  }

  // A password set although its secret has been deleted since, or a secret deleted after the user came back.
  predicate Breaks(s: State, e: Event) {
    || (e.SetUser? && e.ensure in s.held && Stale(s, s.held[e.ensure]))
    || (e.DeleteSecret? && s.user.Some?)
  }

  lemma BreaksIff(run: seq<Event>, e: Event)
    requires Legal(run + [e]) && Legal(run) && Agreed(After(run))
    ensures Agreed(After(run + [e])) <==> !Breaks(After(run), e)
  {
    assert (run + [e])[..|run|] == run;
    RunIsNumbered(run);
  }

  // In every state along the run.
  ghost predicate AgreedThroughout(run: seq<Event>) {
    Agreed(After(run)) && (run != [] ==> AgreedThroughout(run[..|run| - 1]))
  }

  // No event of the run is one of the two.
  ghost predicate NeverBreaks(run: seq<Event>) {
    run != [] ==> NeverBreaks(run[..|run| - 1]) && !Breaks(After(run[..|run| - 1]), run[|run| - 1])
  }

  /** Agreement holds all along a run if and only if no ensure sets a password it obtained before a deletion of
      the secret, and no secret is deleted while an ensure has set the user again. */
  lemma {:induction false} AgreedThroughoutIff(run: seq<Event>)
    requires Legal(run)
    ensures AgreedThroughout(run) <==> NeverBreaks(run)
  {
    if run != [] {
      var (before, last) := (run[..|run| - 1], run[|run| - 1]);
      AgreedThroughoutIff(before);
      assert run == before + [last];
      if AgreedThroughout(before) {
        assert Agreed(After(before));
        BreaksIff(before, last);
      }
    }
  }

  // The two overlaps, with a single ensure and a single cleanup after the credentials were set up.
  lemma BothOverlapsBreak()
    ensures var run := [Obtain(0), SetUser(0), Obtain(1), DeleteUser, SetUser(1), DeleteSecret];
      Legal(run) && !Agreed(After(run))
    ensures var run := [Obtain(0), SetUser(0), Obtain(1), DeleteUser, DeleteSecret, SetUser(1)];
      Legal(run) && !Agreed(After(run))
  {
    var start := [Obtain(0), SetUser(0), Obtain(1), DeleteUser];
    assert start[..3] == [Obtain(0), SetUser(0), Obtain(1)] && start[..3][..2] == [Obtain(0), SetUser(0)];
    assert [Obtain(0), SetUser(0)][..1] == [Obtain(0)] && [Obtain(0)][..0] == [];
    var s := After(start);
    assert Legal(start) && s == State(Some(0), 1, None, map[0 := 0, 1 := 0], 0);
    Extend(start, SetUser(1));
    Extend(start + [SetUser(1)], DeleteSecret);
    assert start + [SetUser(1)] + [DeleteSecret]
        == [Obtain(0), SetUser(0), Obtain(1), DeleteUser, SetUser(1), DeleteSecret];
    Extend(start, DeleteSecret);
    Extend(start + [DeleteSecret], SetUser(1));
    assert start + [DeleteSecret] + [SetUser(1)]
        == [Obtain(0), SetUser(0), Obtain(1), DeleteUser, DeleteSecret, SetUser(1)];
  }

  lemma Extend(run: seq<Event>, e: Event)
    requires Legal(run) && Possible(After(run), e)
    ensures Legal(run + [e]) && After(run + [e]) == Next(After(run), e)
  {
    assert (run + [e])[..|run|] == run;
  }
}
