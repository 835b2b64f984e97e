/** The in-memory store driver: a map of objects and a switch that refuses deletes. */
module FakeStore {
  import opened Api

  class Store {
    var objects: map<string, Object>
    var refusing: bool

    constructor ()
      ensures objects == map[] && !refusing
    {
      objects := map[];
      refusing := false;
    }

    /** Reads; the answer is what was put there, or nothing. */
    method Observe(key: string) returns (found: Option<Object>)
      ensures found.Some? <==> key in objects
      ensures found.Some? ==> found.value == objects[key]
    {
      found := if key in objects then Some(objects[key]) else None;
    }

    /** Deleting an absent object is not an error; a refused delete changes nothing. */
    method Delete(key: string) returns (ok: bool)
      modifies this`objects
      ensures ok == !refusing
      ensures objects == if ok then old(objects) - {key} else old(objects)
    {
      if refusing {
        return false;
      }
      objects := objects - {key};
      return true;
    }

    method FailDeletes(refuse: bool)
      modifies this`refusing
      ensures refusing == refuse
    {
      refusing := refuse;
    }

    /** Copies the metadata entry by entry, as a generator's upload does. */
    method Put(key: string, digest: string, metadata: map<string, string>)
      modifies this`objects
      ensures objects == old(objects)[key := Object(digest, metadata)]
    {
      var md: map<string, string> := map[];
      var left := metadata.Keys;
      while left != {}
        invariant left <= metadata.Keys
        invariant md.Keys == metadata.Keys - left
        invariant forall k :: k in md ==> md[k] == metadata[k]
        decreases |left|
      {
        var k :| k in left;
        md := md[k := metadata[k]];
        left := left - {k};
      }
      assert md == metadata;
      objects := objects[key := Object(digest, md)];
    }

    method Clear()
      modifies this`objects
      ensures objects == map[]
    {
      objects := map[];
    }
  }
}
