/** The in-memory store object (internal/store/memory.go): its two fields, the
    methods that change them in place, and a ghost record of every write. */
module MemoryStore {
  import opened KvStore

  class Memory<V(==)> {
    var entries: map<string, Entry<V>>
    var revision: nat
    ghost var written: map<nat, Write<string, V>>

    /** The value this object stands for. */
    ghost function Value(): Store<string, V>
      reads this
    {
      Store(entries, revision, written)
    }

    constructor ()
      ensures Value() == Empty()
    {
      entries, revision, written := map[], 0, map[];
    }

    method Get(key: string) returns (entry: Option<Entry<V>>)
      ensures entry == if key in entries then Some(entries[key]) else None
    {
      if key in entries {
        return Some(entries[key]);
      }
      return None;
    }

    method Create(key: string, value: V) returns (reply: Reply)
      modifies this
      ensures (Value(), reply) == KvStore.Create(old(Value()), key, value)
      ensures if key in old(entries) then reply == Failed(Exists) && entries == old(entries)
              else reply == Ok(revision) && revision == old(revision) + 1
                   && entries == old(entries)[key := Entry(value, revision)]
    {
      if key in entries {
        return Failed(Exists);
      }
      revision := revision + 1;
      entries := entries[key := Entry(value, revision)];
      written := written[revision := Write(key, value)];
      return Ok(revision);
    }

    method Update(key: string, value: V, expected: nat) returns (reply: Reply)
      modifies this
      ensures (Value(), reply) == KvStore.Update(old(Value()), key, value, expected)
      ensures if key !in old(entries) then reply == Failed(NotFound) && entries == old(entries)
              else if old(entries)[key].revision != expected then reply == Failed(Conflict) && entries == old(entries)
              else reply == Ok(revision) && revision == old(revision) + 1
                   && entries == old(entries)[key := Entry(value, revision)]
    {
      if key !in entries {
        return Failed(NotFound);
      }
      if entries[key].revision != expected {
        return Failed(Conflict);
      }
      revision := revision + 1;
      entries := entries[key := Entry(value, revision)];
      written := written[revision := Write(key, value)];
      return Ok(revision);
    }

    method Delete(key: string) returns (reply: Reply)
      modifies this
      ensures (Value(), reply) == KvStore.Delete(old(Value()), key)
      ensures revision == old(revision) && entries == old(entries) - {key}
      ensures reply == if key in old(entries) then Ok(0) else Failed(NotFound)
    {
      if key !in entries {
        return Failed(NotFound);
      }
      entries := entries - {key};
      return Ok(0);
    }

    method DeleteRevision(key: string, expected: nat) returns (reply: Reply)
      modifies this
      ensures (Value(), reply) == KvStore.DeleteRevision(old(Value()), key, expected)
      ensures revision == old(revision)
      ensures if key !in old(entries) then reply == Failed(NotFound) && entries == old(entries)
              else if old(entries)[key].revision != expected then reply == Failed(Conflict) && entries == old(entries)
              else reply == Ok(0) && entries == old(entries) - {key}
    {
      if key !in entries {
        return Failed(NotFound);
      }
      if entries[key].revision != expected {
        return Failed(Conflict);
      }
      entries := entries - {key};
      return Ok(0);
    }

    /** Exactly the live entries whose key starts with the prefix. */
    method List(prefix: string) returns (result: map<string, Entry<V>>)
      ensures result == Listed(entries, prefix)
      ensures forall k :: k in result <==> k in entries && prefix <= k
      ensures forall k :: k in result ==> result[k] == entries[k]
    {
      result := map[];
      var todo := entries.Keys;
      while todo != {}
        invariant todo <= entries.Keys
        invariant result == Listed(map k | k in entries && k !in todo :: entries[k], prefix)
        decreases todo
      {
        var key :| key in todo;
        todo := todo - {key};
        if prefix <= key {
          result := result[key := entries[key]];
        }
      }
      assert entries == map k | k in entries && k !in todo :: entries[k];
    }
  }

  function Listed<V>(entries: map<string, Entry<V>>, prefix: string): map<string, Entry<V>> {
    map k | k in entries && prefix <= k :: entries[k]
  }
}
