/** Queue keys against the key prefix a namespace's ACL user is confined to. */
module Keys {

  function WorkKeyOf(namespace: string, uid: string): string {
    "ns:" + namespace + ":pi:" + uid + ":work"
  }

  function DlqKeyOf(namespace: string, uid: string): string {
    "ns:" + namespace + ":pi:" + uid + ":dlq"
  }

  // What the pattern ~ns:<namespace>:* asks a key to start with.
  function AclPrefix(namespace: string): string {
    "ns:" + namespace + ":"
  }

  ghost predicate ColonFree(s: string) {
    forall i :: 0 <= i < |s| ==> s[i] != ':'
  }

  // Text up to its first colon is determined.
  lemma FirstFieldUnique(a: string, x: string, b: string, y: string)
    requires ColonFree(a) && ColonFree(b) && a + ":" + x == b + ":" + y
    ensures a == b && x == y
  {
    var s := a + ":" + x;
    assert s[|a|] == ':' && (b + ":" + y)[|b|] == ':';
    assert |a| == |b|;
    assert a == s[..|a|] && x == s[|a| + 1..];
    assert b == (b + ":" + y)[..|b|] && y == (b + ":" + y)[|b| + 1..];
  }

  lemma Drop(p: string, a: string, b: string)
    requires p + a == p + b
    ensures a == b
  {
    assert a == (p + a)[|p|..] && b == (p + b)[|p|..];
  }

  // A key is its namespace, its uid and its kind.
  lemma KeyParts(n1: string, u1: string, k1: string, n2: string, u2: string, k2: string)
    requires ColonFree(n1) && ColonFree(n2) && ColonFree(u1) && ColonFree(u2)
    requires "ns:" + n1 + ":pi:" + u1 + ":" + k1 == "ns:" + n2 + ":pi:" + u2 + ":" + k2
    ensures n1 == n2 && u1 == u2 && k1 == k2
  {
    var (r1, r2) := ("pi:" + u1 + ":" + k1, "pi:" + u2 + ":" + k2);
    assert "ns:" + n1 + ":pi:" + u1 + ":" + k1 == "ns:" + (n1 + ":" + r1);
    assert "ns:" + n2 + ":pi:" + u2 + ":" + k2 == "ns:" + (n2 + ":" + r2);
    Drop("ns:", n1 + ":" + r1, n2 + ":" + r2);
    FirstFieldUnique(n1, r1, n2, r2);
    assert r1 == "pi:" + (u1 + ":" + k1) && r2 == "pi:" + (u2 + ":" + k2);
    Drop("pi:", u1 + ":" + k1, u2 + ":" + k2);
    FirstFieldUnique(u1, k1, u2, k2);
  }

  /** Keys of different instances are all distinct, and so are an instance's own two. */
  lemma KeysAreDistinct(n1: string, u1: string, n2: string, u2: string)
    requires ColonFree(n1) && ColonFree(n2) && ColonFree(u1) && ColonFree(u2)
    ensures WorkKeyOf(n1, u1) == WorkKeyOf(n2, u2) <==> n1 == n2 && u1 == u2
    ensures DlqKeyOf(n1, u1) == DlqKeyOf(n2, u2) <==> n1 == n2 && u1 == u2
    ensures WorkKeyOf(n1, u1) != DlqKeyOf(n2, u2)
  {
    assert WorkKeyOf(n1, u1) == "ns:" + n1 + ":pi:" + u1 + ":" + "work";
    assert WorkKeyOf(n2, u2) == "ns:" + n2 + ":pi:" + u2 + ":" + "work";
    assert DlqKeyOf(n1, u1) == "ns:" + n1 + ":pi:" + u1 + ":" + "dlq";
    assert DlqKeyOf(n2, u2) == "ns:" + n2 + ":pi:" + u2 + ":" + "dlq";
    if WorkKeyOf(n1, u1) == WorkKeyOf(n2, u2) {
      KeyParts(n1, u1, "work", n2, u2, "work");
    }
    if DlqKeyOf(n1, u1) == DlqKeyOf(n2, u2) {
      KeyParts(n1, u1, "dlq", n2, u2, "dlq");
    }
    if WorkKeyOf(n1, u1) == DlqKeyOf(n2, u2) {
      KeyParts(n1, u1, "work", n2, u2, "dlq");
    }
  }

  lemma PrefixIff(own: string, namespace: string, rest: string)
    requires ColonFree(own) && ColonFree(namespace)
    ensures AclPrefix(own) <= "ns:" + namespace + ":" + rest <==> own == namespace
  {
    var key := "ns:" + namespace + ":" + rest;
    if own == namespace {
      assert key == AclPrefix(own) + rest;
    }
    if AclPrefix(own) <= key {
      var tail := key[|AclPrefix(own)|..];
      assert key == AclPrefix(own) + tail;
      assert key == "ns:" + (namespace + ":" + rest) && key == "ns:" + (own + ":" + tail);
      Drop("ns:", namespace + ":" + rest, own + ":" + tail);
      FirstFieldUnique(namespace, rest, own, tail);
    }
  }

  /** A queue key falls under the ACL prefix of a namespace iff it belongs to that namespace. */
  lemma AclConfinesToNamespace(own: string, namespace: string, uid: string)
    requires ColonFree(own) && ColonFree(namespace)
    ensures AclPrefix(own) <= WorkKeyOf(namespace, uid) <==> own == namespace
    ensures AclPrefix(own) <= DlqKeyOf(namespace, uid) <==> own == namespace
  {
    assert WorkKeyOf(namespace, uid) == "ns:" + namespace + ":" + ("pi:" + uid + ":work");
    assert DlqKeyOf(namespace, uid) == "ns:" + namespace + ":" + ("pi:" + uid + ":dlq");
    PrefixIff(own, namespace, "pi:" + uid + ":work");
    PrefixIff(own, namespace, "pi:" + uid + ":dlq");
  }
}
