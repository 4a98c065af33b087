/**
 The values a session holds and the session document itself.

 A session is an associative array from attribute names to PHP values. The
 merge compares values with PHP's `===`, which on scalars compares type and
 value and on arrays compares the key/value pairs in order; a datatype with
 structural equality and an ordered list of entries for nested arrays gives
 exactly that comparison on the values PHP can build. (`Arr` can also hold
 duplicate keys or a numeric string key such as `StrKey("1")`, which PHP
 would normalise to an integer key.)
 */
module Documents {

  /** A key of a nested PHP array: PHP allows integer and string keys. */
  datatype ArrayKey = IntKey(n: int) | StrKey(s: string)

  /** A value stored under a session attribute. `Null` is PHP's `null`. */
  datatype Value =
    | Null
    | Bool(b: bool)
    | Int(i: int)
    | Str(s: string)
    | Arr(entries: seq<(ArrayKey, Value)>)

  /** A session document: attribute name to value. */
  type Document = map<string, Value>

  /** A change set: attribute name to its new value; `Null` means "remove". */
  type ChangeSet = map<string, Value>

  /**
   The value a document gives an attribute when the merge reads it.
   An absent attribute reads as `Null`, as `isset` and an index of a missing
   key both do in PHP.
   */
  function Lookup(d: Document, k: string): Value
  {
    if k in d then d[k] else Null
  }

  /** Two documents read the same under `Lookup`: absent and `Null` are the same. */
  ghost predicate SameContents(d: Document, e: Document)
  {
    forall k :: Lookup(d, k) == Lookup(e, k)
  }
}
