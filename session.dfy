/** `mount_driver` and `SessionManager` (rossion.py:33-80, 206-213).

    The manager resolves the session id, mounts a driver chosen by the
    `engine` setting and answers every mapping operation from that driver's
    data; writes and deletes go through the driver. */
module Sessions {
  import opened Values
  import opened Storage
  import opened Drivers
  import Hex
  import KeyOrder

  // ---------------------------------------------------------------------
  // mount_driver

  /** The settings `mount_driver` reads: `engine`, `storage`, `options`. */
  datatype Settings = Settings(engine: Option<string>, storage: Backend, options: Option<Kwargs>)

  datatype Loader = MemoryLoader | MemcachedLoader

  /** `engine is "memcached"` picks the memcached loader; anything else, or
      no engine at all, the memory loader. */
  function ChooseLoader(engine: Option<string>): (l: Loader)
    ensures l == MemcachedLoader <==> engine == Some("memcached")
  {
    if engine == Some("memcached") then MemcachedLoader else MemoryLoader
  }

  /** `settings.get('options', {})`. */
  function OptionsOf(settings: Settings): (kw: Kwargs)
    ensures settings.options.None? ==> kw == map[]
    ensures settings.options.Some? ==> kw == settings.options.value
  {
    match settings.options
    case None => map[]
    case Some(kw) => kw
  }

  /** The storage handle is of the kind the chosen loader works with: a
      dictionary for the memory driver, a client for the memcached one. */
  predicate StorageFitsEngine(settings: Settings)
  {
    settings.storage.Memcached? <==> ChooseLoader(settings.engine) == MemcachedLoader
  }

  /** The stored value the chosen driver's `load` finds under `sessionId`. */
  function StoredFor(sessionId: string, storage: Backend): Option<string>
    reads storage.Target()
  {
    match storage
    case Memory(t) => t.Get(sessionId)
    case Memcached(c) => c.Lookup(sessionId)
  }

  /** `mount_driver(session_id, settings)`. The memory loader's errors
      propagate; the memcached loader gives `None` instead of raising. */
  method MountDriver(sessionId: string, settings: Settings) returns (r: Result<Driver?>)
    requires StorageFitsEngine(settings)
    ensures settings.storage.Memory? ==>
              (r.Ok? <==> LoadedData(StoredFor(sessionId, settings.storage), OptionsOf(settings)).Ok?)
    ensures settings.storage.Memory? && r.Ok? ==> r.value != null
    ensures settings.storage.Memory? && r.Err? ==>
              r.error == LoadedData(StoredFor(sessionId, settings.storage), OptionsOf(settings)).error
    ensures settings.storage.Memcached? ==> r.Ok?
    ensures settings.storage.Memcached? && r.Ok? ==>
              (r.value != null <==>
                 (settings.storage.client.reachable &&
                  LoadedData(StoredFor(sessionId, settings.storage), OptionsOf(settings)).Ok?))
    ensures r.Ok? && r.value != null ==>
              fresh(r.value) && r.value.sessionId == sessionId && r.value.backend == settings.storage &&
              !r.value.dirty &&
              r.value.data == LoadedData(StoredFor(sessionId, settings.storage), OptionsOf(settings)).value
  {
    var options := OptionsOf(settings);
    match ChooseLoader(settings.engine)
    case MemcachedLoader =>
      var d := LoadMemcached(sessionId, settings.storage.client, options);
      r := Ok(d);
    case MemoryLoader =>
      var loaded := LoadMemory(sessionId, settings.storage.table, options);
      match loaded
      case Err(e) =>
        r := Err(e);
      case Ok(d) =>
        r := Ok(d);
  }

  // ---------------------------------------------------------------------
  // Session ids

  /** The number of random bytes a new session id is made from. */
  const IdBytes: nat := 32

  /** The session id a manager takes: the requested one when it is truthy,
      otherwise the hex rendering of fresh random bytes. */
  function ChooseSessionId(requested: Option<string>, entropy: seq<Hex.byte>): string
  {
    if requested.Some? && requested.value != "" then requested.value else Hex.Encode(entropy)
  }

  /** A truthy requested id is kept; otherwise the id is 64 lower-case hex
      digits that decode back to the random bytes. */
  lemma SessionIdChoice(requested: Option<string>, entropy: seq<Hex.byte>)
    requires |entropy| == IdBytes
    ensures requested.Some? && requested.value != "" ==> ChooseSessionId(requested, entropy) == requested.value
    ensures requested.None? || requested.value == "" ==>
              |ChooseSessionId(requested, entropy)| == 2 * IdBytes &&
              (forall i :: 0 <= i < 2 * IdBytes ==> Hex.IsHexDigit(ChooseSessionId(requested, entropy)[i])) &&
              Hex.Decode(ChooseSessionId(requested, entropy)) == Some(entropy)
    ensures ChooseSessionId(requested, entropy) != ""
  {
    Hex.DecodeEncode(entropy);
  }

  // ---------------------------------------------------------------------
  // The manager

  class SessionManager {
    const sessionId: string
    var driver: Driver?

    /** The driver, when there is one, serves this manager's session id. */
    ghost predicate Valid()
      reads this
    {
      driver != null ==> driver.sessionId == sessionId
    }

    /** What a write or delete through the manager may change. */
    ghost function Footprint(): set<object>
      reads this
    {
      if driver == null then {} else {driver, driver.backend.Target()}
    }

    constructor (sessionId: string, driver: Driver?)
      requires driver != null ==> driver.sessionId == sessionId
      ensures this.sessionId == sessionId && this.driver == driver && Valid()
    {
      this.sessionId := sessionId;
      this.driver := driver;
    }

    /** `SessionManager(session_id, settings)`: keep a truthy id or generate
        one from `entropy` (the bytes `os.urandom(32)` returns), then mount
        the driver; an error from mounting is the constructor's error. */
    static method Open(requested: Option<string>, settings: Settings, entropy: seq<Hex.byte>)
      returns (r: Result<SessionManager>)
      requires |entropy| == IdBytes
      requires StorageFitsEngine(settings)
      ensures r.Ok? ==> fresh(r.value) && r.value.Valid()
      ensures r.Ok? ==> r.value.sessionId == ChooseSessionId(requested, entropy)
      ensures settings.storage.Memory? ==>
                (r.Ok? <==> LoadedData(StoredFor(ChooseSessionId(requested, entropy), settings.storage),
                                       OptionsOf(settings)).Ok?)
      ensures r.Err? ==>
                var loaded := LoadedData(StoredFor(ChooseSessionId(requested, entropy), settings.storage),
                                         OptionsOf(settings));
                loaded.Err? && r.error == loaded.error
      ensures settings.storage.Memcached? ==> r.Ok?
      ensures r.Ok? && settings.storage.Memory? ==> r.value.driver != null
      ensures r.Ok? && settings.storage.Memcached? ==>
                (r.value.driver != null <==>
                   (settings.storage.client.reachable &&
                    LoadedData(StoredFor(r.value.sessionId, settings.storage), OptionsOf(settings)).Ok?))
      ensures r.Ok? && r.value.driver != null ==>
                fresh(r.value.driver) && r.value.driver.backend == settings.storage &&
                !r.value.driver.dirty &&
                r.value.driver.data ==
                  LoadedData(StoredFor(r.value.sessionId, settings.storage), OptionsOf(settings)).value
    {
      var id := ChooseSessionId(requested, entropy);
      var mounted := MountDriver(id, settings);
      match mounted
      case Err(e) =>
        r := Err(e);
      case Ok(d) =>
        var m := new SessionManager(id, d);
        r := Ok(m);
    }

    /** `__len__`: the number of keys in the driver's data. */
    method Len() returns (r: Result<nat>)
      ensures driver == null ==> r == Err(NoDriver)
      ensures driver != null ==> r == Ok(|driver.data|)
    {
      if driver == null {
        return Err(NoDriver);
      }
      r := Ok(|driver.data.Keys|);
    }

    /** `__getitem__`: the stored value, or KeyError for a key the session lacks. */
    method GetItem(key: string) returns (r: Result<Value>)
      ensures driver == null ==> r == Err(NoDriver)
      ensures driver != null && key in driver.data ==> r == Ok(driver.data[key])
      ensures driver != null && key !in driver.data ==> r == Err(KeyError)
    {
      if driver == null {
        return Err(NoDriver);
      }
      if key in driver.data {
        return Ok(driver.data[key]);
      }
      r := Err(KeyError);
    }

    /** `has_key`: whether the session holds `key`. */
    method HasKey(key: string) returns (r: Result<bool>)
      ensures driver == null ==> r == Err(NoDriver)
      ensures driver != null ==> r.Ok? && (r.value <==> key in driver.data)
    {
      if driver == null {
        return Err(NoDriver);
      }
      r := Ok(key in driver.data);
    }

    /** `keys()`: every key of the session exactly once, in the ascending
        order `Values` follows too. */
    method Keys() returns (r: Result<seq<string>>)
      ensures driver == null ==> r == Err(NoDriver)
      ensures driver != null ==> r.Ok? && |r.value| == |driver.data|
      ensures driver != null ==> forall k :: k in r.value <==> k in driver.data
      ensures driver != null ==> forall i, j :: 0 <= i < j < |r.value| ==> r.value[i] != r.value[j]
      ensures driver != null ==> r.value == KeyOrder.SortedKeys(driver.data.Keys)
    {
      if driver == null {
        return Err(NoDriver);
      }
      var ks := KeyOrder.SortedKeys(driver.data.Keys);
      KeyOrder.SortedKeysAscending(driver.data.Keys);
      r := Ok(ks);
    }

    /** `values()`: the session's values, one per key, in the order `Keys`
        lists the keys. */
    method Values() returns (r: Result<seq<Value>>)
      ensures driver == null ==> r == Err(NoDriver)
      ensures driver != null ==> r.Ok? && |r.value| == |driver.data|
      ensures driver != null ==> forall v :: v in r.value <==> v in driver.data.Values
      ensures driver != null ==> forall i :: 0 <= i < |r.value| ==>
                r.value[i] == driver.data[KeyOrder.SortedKeys(driver.data.Keys)[i]]
    {
      if driver == null {
        return Err(NoDriver);
      }
      var ks := KeyOrder.SortedKeys(driver.data.Keys);
      var vs: seq<Value> := [];
      var i := 0;
      while i < |ks|
        invariant 0 <= i <= |ks|
        invariant |vs| == i
        invariant forall j :: 0 <= j < i ==> vs[j] == driver.data[ks[j]]
      {
        vs := vs + [driver.data[ks[i]]];
        i := i + 1;
      }
      forall v | v in driver.data.Values ensures v in vs {
        var k :| k in driver.data && driver.data[k] == v;
        var j :| 0 <= j < |ks| && ks[j] == k;
        assert vs[j] == v;
      }
      r := Ok(vs);
    }

    /** `__setitem__`: `driver.set(key, value)`. */
    method SetItem(key: string, value: Value) returns (o: Outcome)
      requires Valid()
      modifies Footprint()
      ensures Valid() && driver == old(driver)
      ensures driver == null ==> o == Fail(NoDriver)
      ensures driver != null ==> driver.data == old(driver.data)[key := value]
      ensures driver != null && old(driver.CanWrite()) ==> o == Pass && !driver.dirty && driver.Wrote(old(driver.Snapshot()), driver.data)
      ensures driver != null && !old(driver.CanWrite()) ==>
                o == Fail(CacheUnavailable) && driver.dirty && unchanged(driver.backend.Target())
    {
      if driver == null {
        return Fail(NoDriver);
      }
      o := driver.Set(key, value);
    }

    /** `__delitem__`: `driver.delete(key)`. */
    method DelItem(key: string) returns (o: Outcome)
      requires Valid()
      modifies Footprint()
      ensures Valid() && driver == old(driver)
      ensures driver == null ==> o == Fail(NoDriver)
      ensures driver != null && key !in old(driver.data) ==>
                o == Fail(KeyError) && unchanged(driver) && unchanged(driver.backend.Target())
      ensures driver != null && key in old(driver.data) ==> driver.data == old(driver.data) - {key}
      ensures driver != null && key in old(driver.data) && old(driver.CanWrite()) ==>
                o == Pass && !driver.dirty && driver.Wrote(old(driver.Snapshot()), driver.data)
      ensures driver != null && key in old(driver.data) && !old(driver.CanWrite()) ==>
                o == Fail(CacheUnavailable) && driver.dirty && unchanged(driver.backend.Target())
    {
      if driver == null {
        return Fail(NoDriver);
      }
      o := driver.Delete(key);
    }
  }
}
