/**
 `SessionHandlerBase`: the session handler that reads a snapshot, and at
 write time re-fetches the stored session and merges the request's changes
 into it attribute by attribute.
 */
module Handlers {
  import opened Documents
  import opened SessionMerge

  /** One call the handler makes on the key-value backend. */
  datatype StoreCall =
    | GetCall(key: string)
    | SetCall(key: string, doc: Document, ttl: int)
    | DeleteCall(key: string)

  /**
   The key-value backend behind the abstract `get`, `set` and `delete`
   primitives, shared by every handler (every request) that uses it. `calls`
   records what the handlers asked of it, in order.
   */
  class Store {
    var data: map<string, Document>
    ghost var calls: seq<StoreCall>

    constructor (data: map<string, Document>)
      ensures this.data == data && calls == []
    {
      this.data := data;
      calls := [];
    }

    /** The document stored under `key`; a miss reads as the empty document. */
    function Fetch(key: string): Document
      reads this
    {
      if key in data then data[key] else map[]
    }

    /** `get($key)`: the stored document, or the empty document on a miss. */
    method Get(key: string) returns (d: Document)
      modifies this`calls
      ensures d == Fetch(key)
      ensures calls == old(calls) + [GetCall(key)]
    {
      d := Fetch(key);
      calls := calls + [GetCall(key)];
    }

    /** `set($key, $session_data)`: stores the document; the expiry is passed along and not modelled. */
    method Set(key: string, doc: Document, ttl: int)
      modifies this
      ensures data == old(data)[key := doc]
      ensures calls == old(calls) + [SetCall(key, doc, ttl)]
    {
      data := data[key := doc];
      calls := calls + [SetCall(key, doc, ttl)];
    }

    /** `delete($key)`: removes the stored document; every backend reports success. */
    method Delete(key: string) returns (ok: bool)
      modifies this
      ensures ok
      ensures data == old(data) - {key}
      ensures calls == old(calls) + [DeleteCall(key)]
    {
      data := data - {key};
      calls := calls + [DeleteCall(key)];
      ok := true;
    }
  }

  class SessionHandler {
    var ttl: int
    var prefix: string
    var readonly: bool
    /** The snapshot taken by `Read`; before any read it is empty, as PHP's unset array reads. */
    var initialState: Document
    const backend: Store
    /** The handler's `resolveConflict`. */
    const resolve: Resolver

    /** A handler with the defaults of the base class, resolving conflicts by last writer wins. */
    constructor (backend: Store)
      ensures ttl == 3600 && prefix == "session_" && !readonly && initialState == map[]
      ensures this.backend == backend && resolve == LastWriterWins
    {
      ttl := 3600;
      prefix := "session_";
      readonly := false;
      initialState := map[];
      this.backend := backend;
      resolve := LastWriterWins;
    }

    /** A handler whose subclass overrides `resolveConflict` with `resolve`. */
    constructor WithResolver(backend: Store, resolve: Resolver)
      ensures ttl == 3600 && prefix == "session_" && !readonly && initialState == map[]
      ensures this.backend == backend && this.resolve == resolve
    {
      ttl := 3600;
      prefix := "session_";
      readonly := false;
      initialState := map[];
      this.backend := backend;
      this.resolve := resolve;
    }

    /** `getKey`: the store key of a session is the prefix followed by the session id. */
    function GetKey(id: string): (key: string)
      reads this
      ensures |key| == |prefix| + |id|
      ensures key[..|prefix|] == prefix && key[|prefix|..] == id
    {
      prefix + id
    }

    /** Distinct sessions of one handler never share a store key. */
    lemma GetKeyInjective(id: string, id': string)
      requires GetKey(id) == GetKey(id')
      ensures id == id'
    {
    }

    /**
     `read`: takes the stored session as the snapshot the write will merge
     against, and returns it (the host encoding is not modelled).
     */
    method Read(id: string) returns (snapshot: Document)
      modifies this`initialState, backend`calls
      ensures initialState == old(backend.Fetch(GetKey(id))) && snapshot == initialState
      ensures backend.calls == old(backend.calls) + [GetCall(GetKey(id))]
    {
      initialState := backend.Get(GetKey(id));
      snapshot := initialState;
    }

    /**
     `write` from the change set on: a read-only handler and an empty change
     set touch nothing; otherwise the stored session is re-fetched, merged
     with the change set and stored under the session's key. The result of
     `set` is ignored and the write reports success.
     */
    method WriteChanges(id: string, changes: ChangeSet) returns (ok: bool)
      modifies backend
      ensures ok
      ensures readonly || changes == map[] ==> unchanged(backend)
      ensures !readonly && changes != map[] ==>
                var key := GetKey(id);
                var merged := Merge(initialState, changes, old(backend.Fetch(key)), resolve);
                && backend.data == old(backend.data)[key := merged]
                && backend.calls == old(backend.calls) + [GetCall(key), SetCall(key, merged, ttl)]
    {
      var key := GetKey(id);
      if readonly {
        return true;
      }
      if changes == map[] {
        return true;
      }
      var externalState := backend.Get(key);
      externalState := MergeChanges(initialState, changes, externalState, resolve);
      backend.Set(key, externalState, ttl);
      ok := true;
    }

    /**
     `write` as the source has it: the diff of `newState` against the snapshot
     is still a TODO, so the change set is always empty and every write
     returns success without a store call.
     */
    method Write(id: string, newState: Document) returns (ok: bool)
      modifies backend
      ensures ok && unchanged(backend)
    {
      var changes: ChangeSet := map[];
      ok := WriteChanges(id, changes);
    }

    /** `destroy`: deletes exactly the session's key and reports what `delete` reports. */
    method Destroy(id: string) returns (ok: bool)
      modifies backend
      ensures ok
      ensures backend.data == old(backend.data) - {GetKey(id)}
      ensures backend.calls == old(backend.calls) + [DeleteCall(GetKey(id))]
    {
      ok := backend.Delete(GetKey(id));
    }
  }

  /**
   Two requests on one session: both read {a: 1, b: 2}; the second changes b
   to 9 and writes first; the first then writes its change of a to 5. The
   stored session keeps both edits.
   */
  method ConcurrentRequestsExample() returns (stored: Document)
    ensures stored == map["a" := Int(5), "b" := Int(9)]
  {
    var snapshot: Document := map["a" := Int(1), "b" := Int(2)];
    var concurrent: Document := map["a" := Int(1), "b" := Int(9)];
    var backend := new Store(map["session_u" := snapshot]);
    var first := new SessionHandler(backend);
    var second := new SessionHandler(backend);
    assert first.GetKey("u") == "session_u" == second.GetKey("u");
    var s1 := first.Read("u");
    var s2 := second.Read("u");
    assert first.initialState == snapshot == second.initialState;
    var ok2 := second.WriteChanges("u", map["b" := Int(9)]);
    assert backend.data["session_u"] == Merge(snapshot, map["b" := Int(9)], snapshot, LastWriterWins);
    assert Merge(snapshot, map["b" := Int(9)], snapshot, LastWriterWins) == concurrent by {
      var m := Merge(snapshot, map["b" := Int(9)], snapshot, LastWriterWins);
      assert m.Keys == {"a", "b"};
    }
    var ok1 := first.WriteChanges("u", map["a" := Int(5)]);
    FieldIsolationExample(LastWriterWins);
    assert backend.data["session_u"] == map["a" := Int(5), "b" := Int(9)];
    stored := backend.Fetch("session_u");
  }
}
