/** A namespace's queue credentials: the secret is the source of truth, the ACL user follows it.

    Reconciles race: before every call of one ensure, the others may take any number of their own steps.
    Each step is one of the three atomic changes below, whose preconditions are what every caller owes the
    others. A caller may be stopped between any two calls, and any call may fail with or without effect. */
module Credentials {
  import opened Decimal

  datatype Secret = Secret(hasData: bool, username: Option<string>, password: Option<string>, managed: bool)

  datatype Lookup = Found(secret: Secret) | Absent | LookupFailed

  datatype Created = CreateOk | AlreadyExists | CreateFailed

  // An instance of the namespace as the cleanup lists it.
  datatype InstanceRef = InstanceRef(uid: string, deleting: bool)

  ghost predicate OthersActive(list: seq<InstanceRef>, own: string) {
    exists i :: 0 <= i < |list| && list[i].uid != own && !list[i].deleting
  }

  method CountActive(list: seq<InstanceRef>, own: string) returns (active: nat)
    ensures active > 0 <==> OthersActive(list, own)
  {
    active := 0;
    for i := 0 to |list|
      invariant active > 0 <==> OthersActive(list[..i], own)
    {
      assert list[..i + 1] == list[..i] + [list[i]];
      if list[i].uid != own && !list[i].deleting {
        active := active + 1;
        assert list[..i + 1][i] == list[i];
      } else if OthersActive(list[..i], own) {
        var k :| 0 <= k < i && list[..i][k].uid != own && !list[..i][k].deleting;
        assert list[..i + 1][k] == list[k];
      }
    }
    assert list[..|list|] == list;
  }

  function ValkeyUsernameForNamespace(namespace: string): string {
    "ns-" + namespace
  }

  predicate Usable(s: Secret, username: string) {
    s.hasData && s.username == Some(username) && s.password.Some? && s.password.value != ""
  }

  class NamespaceCredentials {
    const namespace: string
    const reliable: bool              // no call fails
    var secret: Option<Secret>
    var aclPassword: Option<string>   // None: no ACL user

    constructor (namespace: string, secret: Option<Secret>, reliable: bool)
      ensures this.namespace == namespace && this.secret == secret && aclPassword == None && Agreed()
      ensures this.reliable == reliable
    {
      this.namespace, this.secret, aclPassword, this.reliable := namespace, secret, None, reliable;
    }

    function Username(): string {
      ValkeyUsernameForNamespace(namespace)
    }

    // An ACL user exists only while a usable secret exists, and with the same password.
    ghost predicate Agreed()
      reads this
    {
      aclPassword.Some? ==> secret.Some? && Usable(secret.value, Username()) && aclPassword == secret.value.password
    }

    // What concurrent ensures may do to the state: add a usable secret, give the user its password.
    twostate predicate EnsuresOnly()
      reads this
    {
      && (old(secret).Some? ==> secret == old(secret))
      && (old(secret).None? && secret.Some? ==> Usable(secret.value, Username()) && secret.value.managed)
      && (aclPassword == old(aclPassword) || (secret.Some? && aclPassword == secret.value.password))
    }

    method PutSecret(s: Secret)
      requires Agreed() && secret.None? && Usable(s, Username())
      modifies this`secret
      ensures Agreed() && secret == Some(s)
    {
      secret := Some(s);
    }

    method PutAclUser(password: string)
      requires Agreed() && secret.Some? && Usable(secret.value, Username()) && secret.value.password == Some(password)
      modifies this`aclPassword
      ensures Agreed() && aclPassword == Some(password)
    {
      aclPassword := Some(password);
    }

    // A call may fail, with or without effect.
    method Call() returns (sent: bool, replied: bool)
      ensures reliable ==> sent && replied
    {
      sent, replied := *, *;
      if reliable {
        sent, replied := true, true;
      }
    }

    // The other reconciles' steps.
    method Interfere() returns (ghost others: bool)
      requires Agreed()
      modifies this
      ensures Agreed() && EnsuresOnly()
      // One of them created the secret.
      ensures others <==> old(secret).None? && secret.Some?
    {
      others := false;
      var n: nat := *;
      while n > 0
        invariant Agreed() && EnsuresOnly()
        invariant others <==> old(secret).None? && secret.Some?
      {
        var password: string := *;
        if secret.None? && password != "" {
          others := true;
          PutSecret(Secret(true, Some(Username()), Some(password), true));
        } else if secret.Some? && Usable(secret.value, Username()) {
          PutAclUser(secret.value.password.value);
        }
        n := n - 1;
      }
    }

    method GetSecret() returns (r: Lookup, ghost others: bool)
      requires Agreed()
      modifies this
      ensures Agreed() && EnsuresOnly()
      ensures r.Found? ==> secret == Some(r.secret)
      ensures r.Absent? ==> secret.None?
      ensures reliable ==> !r.LookupFailed?
      ensures others <==> old(secret).None? && secret.Some?
    {
      others := Interfere();
      var fails: bool := *;
      if fails && !reliable {
        r := LookupFailed;
      } else {
        r := if secret.Some? then Found(secret.value) else Absent;
      }
    }

    // `mine`: this call created the secret; `others`: one of the others did, before it.
    method CreateSecret(s: Secret) returns (r: Created, ghost mine: bool, ghost others: bool)
      requires Agreed() && Usable(s, Username()) && s.managed
      modifies this
      ensures Agreed() && EnsuresOnly()
      ensures r.CreateOk? ==> secret == Some(s)
      ensures r.AlreadyExists? ==> secret.Some?
      ensures reliable ==> !r.CreateFailed?
      ensures mine || others <==> old(secret).None? && secret.Some?
      ensures !(mine && others) && (mine ==> secret == Some(s)) && (r.CreateOk? ==> mine)
      ensures reliable && old(secret).None? ==> mine || others
    {
      others := Interfere();
      mine := false;
      var sent, replied := Call();
      if sent && secret.Some? && replied {
        r := AlreadyExists;
        return;
      }
      if sent && secret.None? {
        PutSecret(s);
        mine := true;
        r := if replied then CreateOk else CreateFailed;
        return;
      }
      r := CreateFailed;
    }

    // ACL SETUSER with resetpass: one password, the given one.
    method EnsureACLUser(password: string) returns (ok: bool)
      requires Agreed() && secret.Some? && Usable(secret.value, Username()) && secret.value.password == Some(password)
      modifies this
      ensures Agreed() && EnsuresOnly()
      ensures ok ==> aclPassword == Some(password)
      ensures reliable ==> ok
    {
      ghost var others := Interfere();
      var sent, replied := Call();
      if sent {
        PutAclUser(password);
      }
      ok := sent && replied;
    }

    // `candidate` is the randomly generated password. `created`: this ensure created the secret; `others`: another
    // one did, while this one ran.
    method EnsureNamespaceValkeyCredentials(candidate: string)
      returns (ok: bool, ghost created: bool, ghost others: bool)
      requires Agreed() && candidate != ""
      modifies this
      ensures Agreed() && EnsuresOnly()
      ensures ok ==> secret.Some? && Usable(secret.value, Username()) && aclPassword == secret.value.password
      // In the fields: the secret has data, the namespace's user name and a password.
      ensures ok ==> secret.value.hasData && secret.value.username == Some("ns-" + namespace)
                     && aclPassword.Some? && aclPassword.value != ""
      ensures reliable && old(secret).Some? && old(secret).value.hasData ==>
                (old(secret).value.username == Some("ns-" + namespace) && old(secret).value.password.Some? ==>
                   old(secret).value.password.value != "" ==> ok)
      // A secret that appears while this ensure runs is its own unless another ensure was first. Its own holds
      // exactly the generated password, and so does the user then.
      ensures created || others <==> old(secret).None? && secret.Some?
      ensures !(created && others)
      ensures created ==> secret.value.password == Some(candidate) && (ok ==> aclPassword == Some(candidate))
      ensures reliable && old(secret).None? ==> created || others
      // When no call fails, the ensure succeeds unless it finds a secret it cannot use.
      ensures reliable ==> (ok <==> (old(secret).Some? ==> Usable(old(secret).value, Username())))
      // A secret that is not usable is reported, and neither it nor the user is touched.
      ensures old(secret).Some? && !Usable(old(secret).value, Username()) ==> !ok && aclPassword == old(aclPassword)
    {
      ok, created := false, false;
      var existing;
      existing, others := GetSecret();
      if existing.Found? {
        var s := existing.secret;
        if !s.hasData || s.username != Some(Username()) || s.password.None? || s.password.value == "" {
          return;
        }
        ok := EnsureACLUser(s.password.value);
        return;
      }
      if existing.LookupFailed? {
        return;
      }
      var password := candidate;
      var answer;
      answer, created, others := CreateSecret(Secret(true, Some(Username()), Some(password), true));
      if answer.CreateFailed? {
        return;
      }
      if answer.AlreadyExists? {
        var again;
        ghost var after;
        again, after := GetSecret();
        if !again.Found? {
          return;
        }
        var s := again.secret;
        if !s.hasData || s.username != Some(Username()) || s.password.None? || s.password.value == "" {
          return;
        }
        password := s.password.value;
      }
      ok := EnsureACLUser(password);
    }

    // Cleanup of the last instance; it does not overlap any ensure. `listing` is None if listing failed.
    method CleanupNamespaceValkeyCredentials(own: string, listing: Option<seq<InstanceRef>>) returns (ok: bool)
      requires Agreed()
      modifies this
      ensures Agreed() && (ok ==> listing.Some?) && (reliable && listing.Some? ==> ok)
      ensures listing.None? || OthersActive(listing.value, own) || old(secret).None? || !old(secret).value.managed ==>
                secret == old(secret) && aclPassword == old(aclPassword)
      ensures ok && !OthersActive(listing.value, own) && old(secret).Some? && old(secret).value.managed ==>
                secret.None? && aclPassword.None?
      // Whatever fails, the secret outlives the user.
      ensures secret.None? ==> aclPassword.None?
    {
      if listing.None? {
        return false;
      }
      var active := CountActive(listing.value, own);
      if active > 0 {
        return true;
      }
      var lookupFails: bool := *;
      lookupFails := lookupFails && !reliable;
      if secret.None? || lookupFails {
        return secret.None? && !lookupFails;
      }
      if !secret.value.managed {
        return true;
      }
      ok := DeleteACLUser();
      if !ok {
        return;
      }
      ok := DeleteSecret();
    }

    method DeleteACLUser() returns (ok: bool)
      requires Agreed()
      modifies this`aclPassword
      ensures Agreed() && (aclPassword == old(aclPassword) || aclPassword.None?)
      ensures ok ==> aclPassword.None?
      ensures reliable ==> ok
    {
      var sent, replied := Call();
      if sent {
        aclPassword := None;
      }
      ok := sent && replied;
    }

    method DeleteSecret() returns (ok: bool)
      requires Agreed() && aclPassword.None?
      modifies this`secret
      ensures Agreed() && (secret == old(secret) || secret.None?)
      ensures ok ==> secret.None?
      ensures reliable ==> ok
    {
      var sent, replied := Call();
      if sent {
        secret := None;
      }
      ok := sent && replied;
    }
  }

  // The ensures of two namespaces share nothing: secrets they create themselves hold different passwords, and their
  // users have different names and, when both succeed, different passwords.
  method EnsureEach(a: NamespaceCredentials, b: NamespaceCredentials, first: string, second: string)
    returns (okA: bool, okB: bool, ghost createdA: bool, ghost createdB: bool)
    requires a.namespace != b.namespace && a.Agreed() && b.Agreed() && first != second && first != "" && second != ""
    modifies a, b
    ensures a.Agreed() && b.Agreed()
    ensures createdA && createdB ==>
              a.secret.Some? && b.secret.Some? && a.secret.value.password != b.secret.value.password
    ensures createdA && createdB && okA && okB ==> a.aclPassword != b.aclPassword
    ensures okA && okB ==> a.secret.Some? && b.secret.Some? && a.secret.value.username != b.secret.value.username
  {
    ghost var othersA, othersB;
    okA, createdA, othersA := a.EnsureNamespaceValkeyCredentials(first);
    okB, createdB, othersB := b.EnsureNamespaceValkeyCredentials(second);
    UsernamesDiffer(a.namespace, b.namespace);
  }

  lemma UsernamesDiffer(a: string, b: string)
    requires a != b
    ensures ValkeyUsernameForNamespace(a) != ValkeyUsernameForNamespace(b)
  {
    assert ValkeyUsernameForNamespace(a)[3..] == a && ValkeyUsernameForNamespace(b)[3..] == b;
  }
}
