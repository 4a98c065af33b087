# php-session-automerge, modelled in Dafny

The library is a PHP session handler (`SessionHandlerBase`) meant to let
concurrent requests share one session without losing each other's edits.
`read` takes a snapshot of the stored session. The diff that `write` needs
is still a TODO (src/SessionHandlerBase.php:90), so as written every `write`
returns `true` without a store call.

Lines 97-122 show what `write` is meant to do once it has a change set. It
fetches the stored session again and then merges the changes in attribute
by attribute:
- An attribute nobody else touched since the snapshot takes the request's value.
- An attribute someone else also changed goes to `resolveConflict`. By default the
  request's value wins.
- An attribute whose merged value is `null` is removed.

Attributes the request did not change keep whatever the store holds.

The model has four modules:

- `Documents` (documents.dfy): PHP values as a datatype whose equality is
  PHP's `===`, so nested arrays compare as ordered key/value lists. A session
  document is a `map<string, Value>`. `Lookup` reads an absent attribute as
  `Null`, which is what `isset` and the read of a missing index do.
- `SessionMerge` (merge.dfy): the per-attribute merge.
  - `MergeKey`/`Merge` are the reference definition.
  - `MergeChanges` is the merge loop, proved equal to `Merge`.
  - `LastWriterWins` is the default resolver.
  - The lemmas state the merge's guarantees.
- `Diff` (diff.dfy): the INTENDED diff. The source leaves the diff as a TODO
  (src/SessionHandlerBase.php:90) and always uses an empty change set.
  `IntendedChanges` is the diff that the comments at lines 54-55 and 90 describe.
  It is not existing code.
- `Handlers` (handler.dfy), with two classes:
  - `Store` is the key-value backend behind the abstract `get`/`set`/`delete`.
    Its ghost `calls` field records every call made on it.
  - `SessionHandler` holds the `ttl`, `prefix`, `readonly` and `initialState`
    fields, the shared backend, and the resolver that subclasses override.

`write` appears twice:
- `WriteChanges` is the method from the change set on (lines 97-122), with the
  change set as a parameter.
- `Write` is the method as the source has it. Its change set is always empty, so
  every call returns `true` and makes no store call.

Which resolver a handler uses is fixed when it is constructed. `constructor`
gives the default, and `WithResolver` stands for a subclass that overrides
`resolveConflict`.

The merge loop picks the next
attribute freely, so the proofs cover every iteration order, PHP's insertion
order included.

## Model

| member | source | states |
|---|---|---|
| `Documents.Lookup` | src/SessionHandlerBase.php:103-107 | an absent attribute reads as null, as `isset` (:103-104) and the read of a missing index (:107) both give |
| `SessionMerge.LastWriterWins` | src/SessionHandlerBase.php:153-156 | the default `resolveConflict` returns the request's new value |
| `SessionMerge.MergeKey` | src/SessionHandlerBase.php:107-113 | one changed attribute: the new value when external equals initial, the resolver's answer otherwise |
| `SessionMerge.Merge` | src/SessionHandlerBase.php:102-118 | reference definition of the loop's result: changed attributes take their merged value and are absent when it is null; every other attribute keeps its external value |
| `Diff.IntendedChanges` | src/SessionHandlerBase.php:90 | the intended diff (not existing code): attributes of the final state that are new or differ, with their values; attributes the final state dropped are recorded as null, a removal marker inferred from the unset at :115-116 and not written in the source |
| `SessionMerge.MergeChanges` | src/SessionHandlerBase.php:102-118 | the in-place loop over the change set, in any key order, yields exactly the per-attribute merge `Merge` |
| `SessionMerge.MergeStep` | src/SessionHandlerBase.php:103-117 | one loop iteration (compare external with initial, apply or resolve, unset a null) extends the merge by one attribute without disturbing the others |
| `SessionMerge.MergeNoChanges` | src/SessionHandlerBase.php:102 | merging an empty change set leaves the external state exactly as fetched |
| `SessionMerge.MergeAppliesUncontested` | src/SessionHandlerBase.php:103-108 | a changed attribute whose external value equals its initial value (absent read as null) ends with the request's value, and is absent exactly when that value is null |
| `SessionMerge.MergeResolvesConflict` | src/SessionHandlerBase.php:110-116 | a changed attribute whose external value differs from its initial value ends with `resolve(k, initial, new, external)`, absent exactly when that is null |
| `SessionMerge.MergeStoresNoNull` | src/SessionHandlerBase.php:115-116 | no changed attribute is kept with an explicit null: a null merge result removes it |
| `SessionMerge.MergeIsolation` | src/SessionHandlerBase.php:102-118 | an attribute outside the change set is present exactly when it is in the external state, and with the same value |
| `SessionMerge.MergeLastWriterWins` | src/SessionHandlerBase.php:153-156 | with the default resolver every changed attribute ends with the request's value, conflict or not, and is absent exactly when that value is null |
| `SessionMerge.MergeLastWriterWinsIsOverride` | src/SessionHandlerBase.php:153-156 | with the default resolver the merged document is the external state overridden by the change set, minus the attributes the change set sets to null |
| `SessionMerge.LastWriterWinsIgnoresSnapshot` | src/SessionHandlerBase.php:153-156 | with the default resolver the merged document does not depend on the snapshot |
| `SessionMerge.MergeIdempotent` | src/SessionHandlerBase.php:102-118 | with the default resolver, merging the same change set again into the stored result changes nothing |
| `SessionMerge.FieldIsolationExample` | src/SessionHandlerBase.php:102-118 | snapshot {a:1,b:2}, external {a:1,b:9}, change {a:5} merge to {a:5,b:9} under any resolver |
| `SessionMerge.DefaultConflictExample` | src/SessionHandlerBase.php:153-156 | snapshot {a:1}, external {a:2}, change {a:3} merge to {a:3} under the default resolver |
| `SessionMerge.CustomResolverExample` | src/SessionHandlerBase.php:111-112 | the same conflict with a resolver answering 5 merges to {a:5}: an overriding resolver is honoured |
| `SessionMerge.RemovalExample` | src/SessionHandlerBase.php:115-116 | removing an attribute nobody else touched leaves it out of the stored document entirely |
| `Diff.IntendedChangesEmptyIff` | src/SessionHandlerBase.php:88-95 | the intended diff is empty exactly when the final state equals the snapshot, so the early return fires exactly for unchanged sessions |
| `Diff.IntendedChangesRoundTrip` | src/SessionHandlerBase.php:90 | with no concurrent write, merging the intended diff into the snapshot reproduces the final state (null read as absent) and adds no attribute it lacks |
| `Diff.IntendedWriteIdempotent` | src/SessionHandlerBase.php:90 | repeating a write of the same final state over what the first write stored, with the default resolver, stores the same document |
| `Handlers.Store.Get` | src/SessionHandlerBase.php:158-163 | `get` returns the document stored under the key (empty on a miss) and changes no data |
| `Handlers.Store.Set` | src/SessionHandlerBase.php:165-171 | `set` stores the document under the key, passing the ttl, and nothing else changes |
| `Handlers.Store.Delete` | src/SessionHandlerBase.php:173-178 | `delete` removes exactly that key and reports success |
| `Handlers.SessionHandler.constructor` | src/SessionHandlerBase.php:7-11 | defaults: ttl 3600, prefix `session_`, not read-only, empty snapshot, last-writer-wins resolver |
| `Handlers.SessionHandler.WithResolver` | src/SessionHandlerBase.php:144-156 | the same defaults with an overriding `resolveConflict` |
| `Handlers.SessionHandler.GetKey` | src/SessionHandlerBase.php:129-131 | the store key is the prefix followed by the session id |
| `Handlers.SessionHandler.GetKeyInjective` | src/SessionHandlerBase.php:129-131 | two session ids with the same store key are equal |
| `Handlers.SessionHandler.Read` | src/SessionHandlerBase.php:52-57 | `read` makes one `get` of the session's key and keeps its result as the snapshot |
| `Handlers.SessionHandler.WriteChanges` | src/SessionHandlerBase.php:73-123 | read-only or empty change set: returns true, no store call; otherwise exactly one `get` then one `set` of the merged document under the session's key, and returns true |
| `Handlers.SessionHandler.Write` | src/SessionHandlerBase.php:73-95 | as written (empty change set), every write returns true and leaves the store and its call log unchanged |
| `Handlers.SessionHandler.Destroy` | src/SessionHandlerBase.php:139-142 | `destroy` deletes exactly the session's key with one `delete` call and returns its result |
| `Handlers.ConcurrentRequestsExample` | src/SessionHandlerBase.php:97-122 | two handlers on one store both read {a:1,b:2}; one writes b:=9, then the other a:=5; the store ends with {a:5,b:9} |

## Left out

- The backend adapters (src/SessionHandlerMemcached.php, src/SessionHandlerRedis.php, src/SessionHandlerPRedis.php, src/SessionHandlerPhpRedis.php): they are network I/O and serialisation. `Store` is an in-memory map in their place.
- Backend quirks: Memcached's `get` returns `false` on a miss. `Store.Get` reads a miss as the empty document, and the merge treats both the same way.
- `session_encode`/`session_decode` and the swap of the `$_SESSION` global in `read` and `write`: the host's encoding and ambient state. `Read` returns the snapshot document, and `Write` receives the decoded final state.
- `open`, `close`, `gc`: lifecycle hooks that only return `true`.
- TTL expiry: `ttl` is passed to `set` and recorded, and nothing expires.
- Concurrency between process interleavings inside one write: each write is atomic in the model. The race between the re-fetch and the final `set` is not modelled.
- Error handling: failures of store calls, of decoding and of the resolver, and falling back to read-only after a failed read. The source has none of these (the TODO at src/SessionHandlerBase.php:120).
- The diff itself is a TODO in the source. `Diff.IntendedChanges` is the intended behaviour and nothing in `Write` calls it.
- Values: PHP floats, objects (compared by identity under `===`) and resources are not modelled. The order of the session's top-level attributes is not modelled either, because a document is a map. Nested arrays keep their order.
