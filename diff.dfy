/**
 The change set `write` is meant to compute: the diff of the request's final
 session against the snapshot taken at `read`. The source leaves this step as
 a TODO (src/SessionHandlerBase.php:90) and always uses an empty change set;
 this module is the INTENDED diff, as the comments at
 src/SessionHandlerBase.php:54-55 and :90 describe it, not existing code.
 */
module Diff {
  import opened Documents
  import opened SessionMerge

  /**
   Intended diff: an attribute of the new state that is new or holds a
   different value is recorded with that value; an attribute of the snapshot
   that the new state dropped is recorded as `Null` (removal).
   */
  function IntendedChanges(initial: Document, newState: Document): ChangeSet
  {
    map k | k in initial.Keys + newState.Keys && (k !in newState || k !in initial || initial[k] != newState[k])
      :: if k in newState then newState[k] else Null
  }

  /** The intended diff is empty exactly when the new state equals the snapshot. */
  lemma IntendedChangesEmptyIff(initial: Document, newState: Document)
    ensures IntendedChanges(initial, newState) == map[] <==> initial == newState
  {
    if IntendedChanges(initial, newState) == map[] {
      forall k | k in initial.Keys + newState.Keys
        ensures k in initial && k in newState && initial[k] == newState[k]
      {
        assert k !in IntendedChanges(initial, newState);
      }
      assert initial.Keys == newState.Keys;
    }
  }

  /**
   Round trip: when nobody else wrote since the snapshot, merging the intended
   diff into the snapshot reproduces the new state, up to attributes the new
   state holds as `Null`, and adds no attribute the new state lacks.
   */
  lemma IntendedChangesRoundTrip(initial: Document, newState: Document, resolve: Resolver)
    ensures var m := Merge(initial, IntendedChanges(initial, newState), initial, resolve);
            SameContents(m, newState) && m.Keys <= newState.Keys
  {
  }

  /**
   Idempotence stated for the final state the host hands to `write` rather
   than for a change set: a second write of the same final state, with the
   store still holding what the first stored and the default resolver, stores
   the same document. It is `MergeIdempotent` applied to the intended diff;
   a resolver that combines values (a sum, say) is not idempotent.
   */
  lemma IntendedWriteIdempotent(initial: Document, newState: Document, external: Document)
    ensures var c := IntendedChanges(initial, newState);
            var m := Merge(initial, c, external, LastWriterWins);
            Merge(initial, c, m, LastWriterWins) == m
  {
  }
}
