/** Derivation of storage keys for namespaced resources.

    A key root is a fixed prefix, extended by the request's namespace when it
    carries a non-empty one. A resource key is the root extended by the
    resource name, and is only produced when the namespace is present and the
    name is both non-empty and a valid path segment; otherwise the request is
    refused as a bad request. The pod variants fix the prefix to `/pod`. */
module NamespaceKeys {
  import opened Wrappers

  /** Why a key could not be derived. Each is a bad-request error. */
  datatype BadRequestReason =
    | NamespaceRequired   // the context has no namespace, or an empty one
    | NameRequired        // the resource name is empty
    | NameInvalid         // the name fails the path-segment validator

  /** The namespace a request context carries: `None` when it carries none. */
  type Context = Option<string>

  /** The identity fields of an object, as its metadata accessor reports them. */
  datatype ObjectMeta = ObjectMeta(namespace: string, name: string)

  /** The key prefix under which pods are stored. */
  const PodPrefix: string := "/pod"

  /** True when the context carries a namespace and it is not empty. */
  predicate HasNamespace(ctx: Context) {
    ctx.Some? && |ctx.value| > 0
  }

  /** The key under which every resource of the context's namespace lives.
      It never fails: without a usable namespace it is the bare prefix. */
  function NamespaceKeyRoot(ctx: Context, prefix: string): (key: string)
    ensures prefix <= key
    ensures key == prefix <==> !HasNamespace(ctx)
    ensures HasNamespace(ctx) ==> key[|prefix|..] == "/" + ctx.value
  {
    if HasNamespace(ctx) then prefix + "/" + ctx.value else prefix
  }

  /** The key of the resource `name` in the context's namespace. The checks
      run in a fixed order: namespace, then empty name, then the validator,
      so the validator is never consulted for an empty name. */
  function NamespaceKey(ctx: Context, prefix: string, name: string,
                        validSegment: string -> bool): (r: Result<string, BadRequestReason>)
    ensures r == Failure(NamespaceRequired) <==> !HasNamespace(ctx)
    ensures r == Failure(NameRequired) <==> HasNamespace(ctx) && name == ""
    ensures r == Failure(NameInvalid) <==>
              HasNamespace(ctx) && name != "" && !validSegment(name)
    ensures r.Success? <==> HasNamespace(ctx) && name != "" && validSegment(name)
    ensures r.Success? ==> r.value == NamespaceKeyRoot(ctx, prefix) + "/" + name
    ensures HasNamespace(ctx) && r.Success? ==>
              && r.value == prefix + "/" + ctx.value + "/" + name
              && |r.value| == |prefix| + |ctx.value| + |name| + 2
  {
    var key := NamespaceKeyRoot(ctx, prefix);
    if !HasNamespace(ctx) then
      Failure(NamespaceRequired)
    else if |name| == 0 then
      Failure(NameRequired)
    else if !validSegment(name) then
      Failure(NameInvalid)
    else
      Success(key + "/" + name)
  }

  /** The key root for pods of the context's namespace. */
  function PodKeyRoot(ctx: Context): (key: string)
    ensures HasNamespace(ctx) ==> key == "/pod/" + ctx.value
    ensures !HasNamespace(ctx) ==> key == "/pod"
  {
    NamespaceKeyRoot(ctx, PodPrefix)
  }

  /** The key of the pod `name` in the context's namespace. */
  function PodKey(ctx: Context, name: string,
                  validSegment: string -> bool): (r: Result<string, BadRequestReason>)
    ensures !HasNamespace(ctx) ==> r == Failure(NamespaceRequired)
    ensures r.Success? <==> HasNamespace(ctx) && name != "" && validSegment(name)
    ensures HasNamespace(ctx) && r.Success? ==> r.value == "/pod/" + ctx.value + "/" + name
  {
    NamespaceKey(ctx, PodPrefix, name, validSegment)
  }

  /** The key of a pod object. The object's namespace is always put into the
      context, so an object without a namespace is seen as present but empty. */
  function ObjectKey(obj: ObjectMeta,
                     validSegment: string -> bool): (r: Result<string, BadRequestReason>)
    ensures obj.namespace == "" ==> r == Failure(NamespaceRequired)
    ensures obj.namespace != "" && obj.name == "" ==> r == Failure(NameRequired)
    ensures r.Success? <==> obj.namespace != "" && obj.name != "" && validSegment(obj.name)
    ensures r.Success? ==> r.value == "/pod/" + obj.namespace + "/" + obj.name
  {
    PodKey(Some(obj.namespace), obj.name, validSegment)
  }

  /** Within one namespace and prefix, different names give different keys. */
  lemma {:induction false} NameDeterminesKey(ctx: Context, prefix: string, name1: string, name2: string,
                                             validSegment: string -> bool)
    requires NamespaceKey(ctx, prefix, name1, validSegment).Success?
    requires NamespaceKey(ctx, prefix, name2, validSegment).Success?
    requires NamespaceKey(ctx, prefix, name1, validSegment).value
          == NamespaceKey(ctx, prefix, name2, validSegment).value
    ensures name1 == name2
  {
    var root := NamespaceKeyRoot(ctx, prefix) + "/";
    var key := NamespaceKey(ctx, prefix, name1, validSegment).value;
    assert key == root + name1 == root + name2;
    assert name1 == key[|root|..];
    assert name2 == key[|root|..];
  }

  /** The pod `foo1` of namespace `fakeNs1` is stored under `/pod/fakeNs1/foo1`. */
  lemma PodFoo1Key(validSegment: string -> bool)
    requires validSegment("foo1")
    ensures ObjectKey(ObjectMeta("fakeNs1", "foo1"), validSegment) == Success("/pod/fakeNs1/foo1")
  {
    assert "/pod/" + "fakeNs1" + "/" + "foo1" == "/pod/fakeNs1/foo1";
  }
}
