# Namespaced storage keys for pods

This project models how the repository derives the storage key of a
namespaced resource, and proves what those keys look like and when they
are refused.

- A **key root** is a prefix. If the request context carries a non-empty
  namespace, the root is `prefix/namespace`. Deriving a root never fails.
- A **resource key** is the root followed by `/name`. Three checks run first,
  in this order:
  1. the context must carry a non-empty namespace;
  2. the name must be non-empty;
  3. the name must pass the path-segment validator.
  Each failed check is a bad request with its own reason.
- The **pod** variants fix the prefix to `/pod`. The object variant reads an
  object's namespace and name. It always puts the namespace into the context,
  so an object without a namespace shows up as present but empty, and is
  refused.

The path-segment validator is a library function whose rules are not shown
here. Each operation therefore takes it as a parameter, `validSegment`.
Request contexts are modelled as `Option<string>`: `None` means the context
carries no namespace. Objects are modelled as a `(namespace, name)` record.

Keys also have an inverse, `KeyPaths.ParseKey`. It splits a key at its last
`/`. The round-trip lemmas show that a key identifies its namespace and name
when the name holds no `/`. `KeyPaths.SlashInNameCollides` shows that the
condition is needed: names containing `/` can collide.

Files:
- `wrappers.dfy`: `Option` and `Result`.
- `namespace_keys.dfy`: the key derivation.
- `key_paths.dfy`: the inverse and the round trips.

## Model

| member | source | states |
|---|---|---|
| NamespaceKeys.NamespaceKeyRoot | indexer/indexer1_test.go:49-56 | never fails; the result starts with the prefix; it equals the prefix exactly when the namespace is absent or empty; otherwise what follows the prefix is `/` plus the namespace |
| NamespaceKeys.NamespaceKey | indexer/indexer1_test.go:58-72 | fails with NamespaceRequired exactly when the namespace is absent or empty, whatever the name; fails with NameRequired exactly when the namespace is set and the name is empty, without consulting the validator; fails with NameInvalid exactly when the namespace is set and the validator rejects a non-empty name; succeeds exactly when all three checks pass; on success the key is the root plus `/name`, i.e. `prefix/ns/name`, with length `|prefix| + |ns| + |name| + 2` |
| NamespaceKeys.PodKeyRoot | indexer/indexer1_test.go:27-29 | the pod key root is `/pod/ns` for a non-empty namespace and `/pod` otherwise |
| NamespaceKeys.PodKey | indexer/indexer1_test.go:30-32 | a pod key is refused for a missing namespace; it succeeds exactly when namespace, name and validator all agree; a successful key is `/pod/ns/name` |
| NamespaceKeys.ObjectKey | indexer/indexer1_test.go:34-40 | an object with an empty namespace is always refused with NamespaceRequired; one with a namespace but no name is refused with NameRequired; success happens exactly when both are non-empty and the name is valid; the key is `/pod/namespace/name` |
| NamespaceKeys.NameDeterminesKey | indexer/indexer1_test.go:70-71 | within one namespace and prefix, two names that give the same key are the same name |
| NamespaceKeys.PodFoo1Key | indexer/indexer1_test.go:43-46 | the pod `foo1` in namespace `fakeNs1` gets the key `/pod/fakeNs1/foo1` when the validator accepts `foo1` |
| KeyPaths.ParseJoin | indexer/indexer1_test.go:70-71 | a key `prefix/ns/name` with non-empty `ns` and a non-empty name free of `/` parses back into exactly `(ns, name)`; together with the success form of `NamespaceKey`, parsing a derived key returns the namespace and name it came from |
| KeyPaths.NamespaceKeyOfParsed | indexer/indexer1_test.go:58-72 | deriving a key from the parts a key parses into gives the same key back, when the validator accepts the name |
| KeyPaths.ObjectKeyInjective | indexer/indexer1_test.go:34-40 | two pods whose names hold no `/` share a key only when they have the same namespace and name |
| KeyPaths.SlashInNameCollides | indexer/indexer1_test.go:39-70 | if the validator accepts `b/c`, namespace `a/b` with name `c` and namespace `a` with name `b/c` both get the key `/pod/a/b/c` |

## Left out

- The indexed store in indexer/indexer0_test.go (`cache.NewIndexer` and its `Add`, `Index`, `IndexKeys`, `ListIndexFuncValues`, `ByIndex`). It is client-go library code, and that library is not part of this model. Its reader/writer locking is a concurrency concern.
- `NodeNameIndexFunc` (indexer/indexer0_test.go:16-19). It only matters inside that unseen indexer. Its unchecked type assertion depends on Go runtime types.
- `meta.Accessor`: a reflection-based call that is replaced by the `ObjectMeta` record. Its error path (an object without metadata) cannot arise for a record.
- `path.IsValidPathSegmentName`: a library validator whose rules are not modelled. It is the parameter `validSegment`.
- Request-context plumbing (`WithNamespace`, `NamespaceFrom`). It is modelled as `Option<string>`.
- The error message texts built with `fmt.Sprintf` and `strings.Join`. Only the error reason is modelled.
- Go measures string length in bytes and the model counts characters. The two agree on which strings are empty, and that is the only use the source makes of length. The length stated for a successful key is in characters.
- The test helpers `mokPod` and `newFakePod`, and the testify assertions.
