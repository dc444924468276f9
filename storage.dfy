/** The two storage backends the drivers write through to.

    `MemoryTable` is the plain in-process dictionary that `MemoryDriver`
    uses, keyed by session id and shared by every driver given the same
    dictionary. `CacheClient` stands for the pylibmc client `MemcachedDriver`
    uses: a key-value map whose entries carry the expiry time they were
    written with, and whose calls raise while the server is unreachable. */
module Storage {
  import opened Values

  class MemoryTable {
    var entries: map<string, string>

    constructor ()
      ensures entries == map[]
    {
      entries := map[];
    }

    /** `dictionary.get(key)`. */
    function Get(key: string): (r: Option<string>)
      reads this
      ensures r.Some? <==> key in entries
      ensures r.Some? ==> r.value == entries[key]
    {
      if key in entries then Some(entries[key]) else None
    }

    /** `dictionary[key] = text`. */
    method Put(key: string, text: string)
      modifies this
      ensures entries == old(entries)[key := text]
    {
      entries := entries[key := text];
    }

    /** `del dictionary[key]`, which raises KeyError unless the key is present. */
    method Remove(key: string)
      requires key in entries
      modifies this
      ensures entries == old(entries) - {key}
    {
      entries := entries - {key};
    }
  }

  /** A stored cache value and the expiry time (seconds) it was set with. */
  datatype CacheEntry = CacheEntry(text: string, time: nat)

  class CacheClient {
    var entries: map<string, CacheEntry>
    var reachable: bool

    constructor (reachable: bool)
      ensures entries == map[] && this.reachable == reachable
    {
      entries := map[];
      this.reachable := reachable;
    }

    /** The text stored under `key`, if any. */
    function Lookup(key: string): (r: Option<string>)
      reads this
      ensures r.Some? <==> key in entries
      ensures r.Some? ==> r.value == entries[key].text
    {
      if key in entries then Some(entries[key].text) else None
    }

    /** `client.get(key)`: the stored text, `None` on a miss; raises when unreachable. */
    method Get(key: string) returns (r: Result<Option<string>>)
      ensures r == if reachable then Ok(Lookup(key)) else Err(CacheUnavailable)
    {
      if !reachable {
        return Err(CacheUnavailable);
      }
      r := Ok(Lookup(key));
    }

    /** `client.set(key, text, time=time)`. */
    method Set(key: string, text: string, time: nat) returns (o: Outcome)
      modifies this
      ensures reachable == old(reachable)
      ensures o == (if reachable then Pass else Fail(CacheUnavailable))
      ensures reachable ==> entries == old(entries)[key := CacheEntry(text, time)]
      ensures !reachable ==> unchanged(this)
    {
      if !reachable {
        return Fail(CacheUnavailable);
      }
      entries := entries[key := CacheEntry(text, time)];
      o := Pass;
    }

    /** `client.delete(key)`: a missing key is not an error. */
    method Delete(key: string) returns (o: Outcome)
      modifies this
      ensures reachable == old(reachable)
      ensures o == (if reachable then Pass else Fail(CacheUnavailable))
      ensures reachable ==> entries == old(entries) - {key}
      ensures !reachable ==> unchanged(this)
    {
      if !reachable {
        return Fail(CacheUnavailable);
      }
      entries := entries - {key};
      o := Pass;
    }
  }
}
