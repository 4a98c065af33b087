/**
 The three-way, per-attribute merge that `SessionHandlerBase::write` runs
 between the snapshot taken at `read` (the initial state), the change set of
 the request, and the state re-fetched from the store (the external state).
 */
module SessionMerge {
  import opened Documents

  /**
   A conflict resolver: it receives the attribute name, its initial value,
   the request's new value and the concurrently written external value, and
   returns the merged value. Subclasses override `resolveConflict`; here the
   resolver is a pure function handed to the handler.
   */
  type Resolver = (string, Value, Value, Value) -> Value

  /** The default `resolveConflict`: the writing request's new value wins. */
  function LastWriterWins(key: string, initial: Value, newValue: Value, external: Value): Value
  {
    newValue
  }

  /**
   The merged value of one changed attribute: the new value when nobody else
   changed the attribute since the snapshot, the resolver's answer otherwise.
   */
  function MergeKey(k: string, initial: Value, change: Value, external: Value, resolve: Resolver): Value
  {
    if external == initial then change else resolve(k, initial, change, external)
  }

  /** The merged value of changed attribute `k`, read against both documents. */
  function MergedAt(initial: Document, changes: ChangeSet, external: Document, resolve: Resolver, k: string): Value
    requires k in changes
  {
    MergeKey(k, Lookup(initial, k), changes[k], Lookup(external, k), resolve)
  }

  /**
   The merged document, attribute by attribute: a changed attribute takes its
   merged value and is absent when that value is `Null`; every other attribute
   keeps its external value.
   */
  function Merge(initial: Document, changes: ChangeSet, external: Document, resolve: Resolver): Document
  {
    map k | k in external.Keys + changes.Keys && (k in changes ==> MergedAt(initial, changes, external, resolve, k) != Null)
      :: if k in changes then MergedAt(initial, changes, external, resolve, k) else external[k]
  }

  /** The part of `changes` whose attributes are not in `pending`. */
  function Done(changes: ChangeSet, pending: set<string>): ChangeSet
  {
    map k | k in changes && k !in pending :: changes[k]
  }

  /** With an empty change set the merge leaves the external state as it is. */
  lemma MergeNoChanges(initial: Document, external: Document, resolve: Resolver)
    ensures Merge(initial, map[], external, resolve) == external
  {
  }

  /**
   One iteration of the merge loop: merging attribute `k` into the document
   merged so far gives the merge over the change set extended by `k`.
   */
  lemma MergeStep(initial: Document, changes: ChangeSet, external: Document, resolve: Resolver,
                  pending: set<string>, k: string)
    requires k in pending && pending <= changes.Keys
    ensures var m := Merge(initial, Done(changes, pending), external, resolve);
            var v := MergeKey(k, Lookup(initial, k), changes[k], Lookup(m, k), resolve);
            (if v == Null then m - {k} else m[k := v])
              == Merge(initial, Done(changes, pending - {k}), external, resolve)
  {
  }

  /**
   The `foreach` over the change set (src/SessionHandlerBase.php:102-118): it
   updates the external state in place, one attribute at a time. The next
   attribute is chosen freely, so the result holds for every iteration order,
   PHP's insertion order included.
   */
  method MergeChanges(initial: Document, changes: ChangeSet, external: Document, resolve: Resolver)
    returns (merged: Document)
    ensures merged == Merge(initial, changes, external, resolve)
  {
    merged := external;
    var pending := changes.Keys;
    assert Done(changes, pending) == map[];
    MergeNoChanges(initial, external, resolve);
    while pending != {}
      invariant pending <= changes.Keys
      invariant merged == Merge(initial, Done(changes, pending), external, resolve)
      decreases pending
    {
      var k :| k in pending;
      MergeStep(initial, changes, external, resolve, pending, k);
      var change := changes[k];
      var init := Lookup(initial, k);
      var ext := Lookup(merged, k);
      if ext == init {
        merged := merged[k := change];
      } else {
        merged := merged[k := resolve(k, init, change, ext)];
      }
      if merged[k] == Null {
        merged := merged - {k};
      }
      pending := pending - {k};
    }
    assert Done(changes, pending) == changes;
  }

  /**
   An attribute the request changed and nobody else did since the snapshot
   (absent and `Null` counting as the same) takes the request's value; a
   `Null` value removes it.
   */
  lemma MergeAppliesUncontested(initial: Document, changes: ChangeSet, external: Document, resolve: Resolver, k: string)
    requires k in changes && Lookup(external, k) == Lookup(initial, k)
    ensures var m := Merge(initial, changes, external, resolve);
            Lookup(m, k) == changes[k] && (k in m <==> changes[k] != Null)
  {
  }

  /**
   An attribute the request changed and another request changed too takes the
   resolver's value, given the initial, new and external values.
   */
  lemma MergeResolvesConflict(initial: Document, changes: ChangeSet, external: Document, resolve: Resolver, k: string)
    requires k in changes && Lookup(external, k) != Lookup(initial, k)
    ensures var m := Merge(initial, changes, external, resolve);
            var r := resolve(k, Lookup(initial, k), changes[k], Lookup(external, k));
            Lookup(m, k) == r && (k in m <==> r != Null)
  {
  }

  /** A changed attribute whose merged value is `Null` is absent: no explicit `Null` is stored for it. */
  lemma MergeStoresNoNull(initial: Document, changes: ChangeSet, external: Document, resolve: Resolver)
    ensures var m := Merge(initial, changes, external, resolve);
            forall k :: k in changes && k in m ==> m[k] != Null
  {
  }

  /**
   Field isolation: an attribute outside the change set keeps exactly its
   external value (or stays absent), whatever other requests did to it.
   */
  lemma MergeIsolation(initial: Document, changes: ChangeSet, external: Document, resolve: Resolver)
    ensures var m := Merge(initial, changes, external, resolve);
            forall k :: k !in changes ==> (k in m <==> k in external) && (k in m ==> m[k] == external[k])
  {
  }

  /**
   With the default resolver every changed attribute ends with the request's
   value, conflict or not, and is absent exactly when that value is `Null`.
   */
  lemma MergeLastWriterWins(initial: Document, changes: ChangeSet, external: Document)
    ensures var m := Merge(initial, changes, external, LastWriterWins);
            forall k :: k in changes ==> Lookup(m, k) == changes[k] && (k in m <==> changes[k] != Null)
  {
  }

  /**
   With the default resolver the merge is a plain override: the external state
   updated with the change set, minus the attributes the change set removes.
   */
  lemma MergeLastWriterWinsIsOverride(initial: Document, changes: ChangeSet, external: Document)
    ensures Merge(initial, changes, external, LastWriterWins)
         == (external + changes) - (set k | k in changes && changes[k] == Null)
  {
  }

  /** With the default resolver the snapshot does not influence the merged document. */
  lemma LastWriterWinsIgnoresSnapshot(initial: Document, initial': Document, changes: ChangeSet, external: Document)
    ensures Merge(initial, changes, external, LastWriterWins) == Merge(initial', changes, external, LastWriterWins)
  {
  }

  /**
   Idempotence: with the default resolver, writing the same change set again
   over the document the first write stored changes nothing.
   */
  lemma MergeIdempotent(initial: Document, changes: ChangeSet, external: Document)
    ensures var m := Merge(initial, changes, external, LastWriterWins);
            Merge(initial, changes, m, LastWriterWins) == m
  {
  }

  /**
   Snapshot {a: 1, b: 2}; another request stored {a: 1, b: 9}; this request
   changed only a to 5. The merge keeps the concurrent b.
   */
  lemma FieldIsolationExample(resolve: Resolver)
    ensures Merge(map["a" := Int(1), "b" := Int(2)], map["a" := Int(5)], map["a" := Int(1), "b" := Int(9)], resolve)
         == map["a" := Int(5), "b" := Int(9)]
  {
  }

  /** Snapshot {a: 1}, external {a: 2}, new {a: 3}: the default resolver stores {a: 3}. */
  lemma DefaultConflictExample()
    ensures Merge(map["a" := Int(1)], map["a" := Int(3)], map["a" := Int(2)], LastWriterWins) == map["a" := Int(3)]
  {
  }

  /** The same conflict with a resolver that answers 5 stores {a: 5}: a custom resolver is honoured. */
  lemma CustomResolverExample(resolve: Resolver)
    requires resolve("a", Int(1), Int(3), Int(2)) == Int(5)
    ensures Merge(map["a" := Int(1)], map["a" := Int(3)], map["a" := Int(2)], resolve) == map["a" := Int(5)]
  {
  }

  /** Removing c, which nobody else touched, leaves c out of the merged document entirely. */
  lemma RemovalExample(resolve: Resolver)
    ensures Merge(map["a" := Int(1), "c" := Str("x")], map["c" := Null], map["a" := Int(1), "c" := Str("x")], resolve)
         == map["a" := Int(1)]
  {
  }
}
