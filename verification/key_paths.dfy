/** Reading a resource key back into its namespace and name.

    A resource key is `prefix/namespace/name`. The namespace is not validated
    and may itself contain `/`, so the key is split at its LAST `/`: the
    round trip holds exactly for names without `/`, which is what a
    path-segment validator admits. */
module KeyPaths {
  import opened Wrappers
  import opened NamespaceKeys

  /** The position of the last `/` in `s`, if any. */
  function LastSlash(s: string): (r: Option<nat>)
    ensures r.None? <==> '/' !in s
    ensures r.Some? ==> r.value < |s| && s[r.value] == '/' && '/' !in s[r.value + 1..]
  {
    if |s| == 0 then None
    else if s[|s| - 1] == '/' then Some(|s| - 1)
    else
      var r := LastSlash(s[..|s| - 1]);
      assert s == s[..|s| - 1] + [s[|s| - 1]];
      r
  }

  /** The namespace and name a key under `prefix` was built from, or `None`
      when the key does not have the shape `prefix/namespace/name` with a
      non-empty namespace and a non-empty name free of `/`. */
  function ParseKey(prefix: string, key: string): (r: Option<(string, string)>)
    ensures r.Some? ==>
              && key == prefix + "/" + r.value.0 + "/" + r.value.1
              && r.value.0 != "" && r.value.1 != ""
              && '/' !in r.value.1
  {
    if |key| <= |prefix| || key[..|prefix| + 1] != prefix + "/" then None
    else
      var rest := key[|prefix| + 1..];
      assert key == prefix + "/" + rest;
      match LastSlash(rest)
      case None => None
      case Some(j) =>
        if j == 0 || j == |rest| - 1 then None
        else
          assert rest == rest[..j] + "/" + rest[j + 1..];
          Some((rest[..j], rest[j + 1..]))
  }

  /** Joining with a `/` before a slash-free tail puts the last `/` at the join. */
  lemma {:induction false} LastSlashOfJoin(a: string, b: string)
    requires '/' !in b
    ensures LastSlash(a + "/" + b) == Some(|a|)
  {
    var s := a + "/" + b;
    if |b| == 0 {
      assert s[|s| - 1] == '/';
    } else {
      assert s[|s| - 1] == b[|b| - 1];
      assert s[..|s| - 1] == a + "/" + b[..|b| - 1];
      LastSlashOfJoin(a, b[..|b| - 1]);
    }
  }

  /** A key assembled from a non-empty namespace and a non-empty, slash-free
      name parses back into those two parts. */
  lemma ParseJoin(prefix: string, ns: string, name: string)
    requires ns != "" && name != "" && '/' !in name
    ensures ParseKey(prefix, prefix + "/" + ns + "/" + name) == Some((ns, name))
  {
    var key := prefix + "/" + ns + "/" + name;
    var rest := ns + "/" + name;
    assert key == prefix + "/" + rest;
    assert key[..|prefix| + 1] == prefix + "/";
    assert key[|prefix| + 1..] == rest;
    LastSlashOfJoin(ns, name);
    assert rest[..|ns|] == ns;
    assert rest[|ns| + 1..] == name;
  }

  /** Deriving a key from what a key parses to, when the validator accepts
      the name, gives the key back. */
  lemma NamespaceKeyOfParsed(prefix: string, key: string, validSegment: string -> bool)
    requires ParseKey(prefix, key).Some?
    requires validSegment(ParseKey(prefix, key).value.1)
    ensures NamespaceKey(Some(ParseKey(prefix, key).value.0), prefix,
                         ParseKey(prefix, key).value.1, validSegment) == Success(key)
  {
  }

  /** Two pods whose names hold no `/` share a key only if they are the same
      pod: the key identifies namespace and name together. */
  lemma ObjectKeyInjective(obj1: ObjectMeta, obj2: ObjectMeta, validSegment: string -> bool)
    requires '/' !in obj1.name && '/' !in obj2.name
    requires ObjectKey(obj1, validSegment).Success?
    requires ObjectKey(obj2, validSegment).Success?
    requires ObjectKey(obj1, validSegment).value == ObjectKey(obj2, validSegment).value
    ensures obj1 == obj2
  {
    ParseJoin(PodPrefix, obj1.namespace, obj1.name);
    ParseJoin(PodPrefix, obj2.namespace, obj2.name);
  }

  /** Without the slash-free-name condition the key does not identify the
      pod: namespace `a/b` with name `c` and namespace `a` with name `b/c`
      share one key whenever the validator accepts both names. */
  lemma SlashInNameCollides(validSegment: string -> bool)
    requires validSegment("c") && validSegment("b/c")
    ensures ObjectKey(ObjectMeta("a/b", "c"), validSegment)
         == ObjectKey(ObjectMeta("a", "b/c"), validSegment)
         == Success("/pod/a/b/c")
  {
    assert "/pod/" + "a/b" + "/" + "c" == "/pod/a/b/c";
    assert "/pod/" + "a" + "/" + "b/c" == "/pod/a/b/c";
  }
}
