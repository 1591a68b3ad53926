/**
  The object store (an S3 bucket) as the post-creation handler uses it:
  stored objects by key, and a log of the calls made to it. Whether a
  call succeeds, and the key a successful upload mints, are decided by
  the store and come in as parameters.
 */
module ObjectStore {
  import opened Common

  type Bytes = seq<bv8>

  /** One call made to the store. */
  datatype Call = Put(data: Bytes) | Remove(key: string)

  class Bucket {
    var objects: map<string, Bytes>
    var calls: seq<Call>

    constructor ()
      ensures objects == map[] && calls == []
    {
      objects := map[];
      calls := [];
    }

    /** Upload `data`; `outcome` is the fresh key the store mints, or `None` when the upload fails. */
    method Upload(data: Bytes, outcome: Option<string>) returns (key: Option<string>)
      requires outcome.Some? ==> outcome.value !in objects
      modifies this
      ensures key == outcome
      ensures objects == if outcome.Some? then old(objects)[outcome.value := data] else old(objects)
      ensures calls == old(calls) + [Put(data)]
    {
      if outcome.Some? {
        objects := objects[outcome.value := data];
      }
      calls := calls + [Put(data)];
      key := outcome;
    }

    /** Delete `key`; `succeeds` says whether the store accepts the call (deleting an absent key is a no-op). */
    method Delete(key: string, succeeds: bool) returns (ok: bool)
      modifies this
      ensures ok == succeeds
      ensures objects == if succeeds then old(objects) - {key} else old(objects)
      ensures calls == old(calls) + [Remove(key)]
    {
      if succeeds {
        objects := objects - {key};
      }
      calls := calls + [Remove(key)];
      ok := succeeds;
    }
  }
}
