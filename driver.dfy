/** `Driver`, `MemoryDriver` and `MemcachedDriver` (rossion.py:83-203).

    A driver owns one session's data and a dirty flag and writes every
    change straight through to its backend. The two Python subclasses differ
    only in `load`, `remove` and `_save`; here one class carries a `Backend`
    value saying which storage it writes to, and those three operations
    branch on it. */
module Drivers {
  import opened Values
  import opened Codec
  import opened Storage

  // ---------------------------------------------------------------------
  // Memcached expiry

  /** A `datetime.timedelta` as Python normalises it: 0 <= seconds < 86400. */
  datatype Timedelta = Timedelta(days: int, seconds: nat, microseconds: nat)

  const SecondsPerDay: nat := 86400

  /** `datetime.timedelta.max`. */
  const TimedeltaMax: Timedelta := Timedelta(999999999, SecondsPerDay - 1, 999999)

  function TotalSeconds(t: Timedelta): int
  {
    t.days * SecondsPerDay + t.seconds
  }

  /** `datetime.timedelta.max.seconds*1`: the seconds field only, not the whole span. */
  const MemcachedExpiry: nat := TimedeltaMax.seconds * 1

  /** The expiry written with every memcached record is one day less one second. */
  lemma MemcachedExpiryIsOneDay()
    ensures MemcachedExpiry == 86399
    ensures MemcachedExpiry < SecondsPerDay < TotalSeconds(TimedeltaMax)
  {
  }

  // ---------------------------------------------------------------------
  // Loading

  /** A keyword record naming a parameter `Driver.__init__(self, session_id,
      storage, ...)` already binds positionally: the call raises TypeError. */
  predicate Clashes(kw: Kwargs)
  {
    "self" in kw || "session_id" in kw || "storage" in kw
  }

  /** `Driver.__init__` called with `**kw`: the data the new driver starts with. */
  function ConstructorData(kw: Kwargs): Result<Data>
  {
    if Clashes(kw) then Err(ArgumentClash)
    else if "data" in kw && kw["data"].TableField? then Ok(kw["data"].table)
    else Ok(map[])
  }

  /** The keyword record `load` hands to the constructor: the decoded stored
      record when the stored value is truthy, the options otherwise. */
  function LoadKeywords(stored: Option<string>, options: Kwargs): Result<Kwargs>
  {
    if stored.Some? && stored.value != "" then Deserialize(stored.value) else Ok(options)
  }

  /** The data a driver loaded from `stored` with `options` starts with. */
  function LoadedData(stored: Option<string>, options: Kwargs): Result<Data>
  {
    match LoadKeywords(stored, options)
    case Err(e) => Err(e)
    case Ok(kw) => ConstructorData(kw)
  }

  /** The text `_save` stores for `d`: `serialize({'data': d})`. */
  function RecordText(d: Data): (s: string)
    ensures s != []
  {
    Serialize(RecordOf(d))
  }

  /** The record `_save` writes is a valid constructor call carrying its data. */
  lemma ConstructRecord(d: Data)
    ensures ConstructorData(RecordOf(d)) == Ok(d)
  {
  }

  /** Loading a stored record gives back the data that was saved, whatever the options. */
  lemma LoadSavedRecord(d: Data, options: Kwargs)
    ensures LoadedData(Some(RecordText(d)), options) == Ok(d)
  {
    RoundTrip(RecordOf(d));
    ConstructRecord(d);
  }

  /** On a miss the options are the constructor's keywords: only an
      `options['data']` dictionary seeds the data, nothing is merged. */
  lemma LoadMiss(stored: Option<string>, options: Kwargs)
    requires stored == None || stored == Some("")
    ensures Clashes(options) ==> LoadedData(stored, options) == Err(ArgumentClash)
    ensures !Clashes(options) && "data" in options && options["data"].TableField? ==>
              LoadedData(stored, options) == Ok(options["data"].table)
    ensures !Clashes(options) && !("data" in options && options["data"].TableField?) ==>
              LoadedData(stored, options) == Ok(map[])
  {
  }

  /** With a truthy stored value the options play no part. */
  lemma LoadHitIgnoresOptions(text: string, options: Kwargs, options': Kwargs)
    requires text != ""
    ensures LoadedData(Some(text), options) == LoadedData(Some(text), options')
  {
  }

  /** Loading either fails, or yields the stored record's data, or the
      options' data, or nothing. */
  lemma LoadOutcomes(stored: Option<string>, options: Kwargs)
    ensures LoadedData(stored, options).Err? ==>
              LoadedData(stored, options).error in {CorruptSessionData, ArgumentClash}
    ensures LoadedData(stored, options).Ok? && LoadedData(stored, options).value != map[] ==>
              (stored.Some? && stored.value != "" && Deserialize(stored.value).Ok? &&
               Deserialize(stored.value).value["data"] == TableField(LoadedData(stored, options).value))
              || options["data"] == TableField(LoadedData(stored, options).value)
  {
  }

  // ---------------------------------------------------------------------
  // The driver

  /** The entries of one of the two backends. */
  datatype StoreSnapshot =
    | TableSnapshot(table: map<string, string>)
    | CacheSnapshot(cache: map<string, CacheEntry>)

  /** Which storage a driver writes through to. */
  datatype Backend = Memory(table: MemoryTable) | Memcached(client: CacheClient)
  {
    function Target(): object
    {
      match this
      case Memory(t) => t
      case Memcached(c) => c
    }
  }

  class Driver {
    const sessionId: string
    const backend: Backend
    var data: Data
    var dirty: bool

    constructor (sessionId: string, backend: Backend, data: Data)
      ensures this.sessionId == sessionId && this.backend == backend
      ensures this.data == data && !dirty
    {
      this.sessionId := sessionId;
      this.backend := backend;
      this.data := data;
      dirty := false;
    }

    /** `get(name, default)`: a read of the in-memory data only. */
    function Get(name: string, default: Value): (v: Value)
      reads this
      ensures name in data ==> v == data[name]
      ensures name !in data ==> v == default
    {
      if name in data then data[name] else default
    }

    /** Whether a write to the backend goes through (the memory table always does). */
    predicate CanWrite()
      reads backend.Target()
    {
      backend.Memory? || backend.client.reachable
    }

    /** The backend's stored entries at one moment. */
    ghost function Snapshot(): StoreSnapshot
      reads backend.Target()
    {
      match backend
      case Memory(t) => TableSnapshot(t.entries)
      case Memcached(c) => CacheSnapshot(c.entries)
    }

    /** The backend differs from `before` only by storing the record of `d`
        under this session's id. */
    ghost predicate Wrote(before: StoreSnapshot, d: Data)
      reads backend.Target()
    {
      match backend
      case Memory(t) => before.TableSnapshot? && t.entries == before.table[sessionId := RecordText(d)]
      case Memcached(c) =>
        before.CacheSnapshot? && c.reachable &&
        c.entries == before.cache[sessionId := CacheEntry(RecordText(d), MemcachedExpiry)]
    }

    /** The backend differs from `before` only by dropping this session's id. */
    ghost predicate Dropped(before: StoreSnapshot)
      reads backend.Target()
    {
      match backend
      case Memory(t) => before.TableSnapshot? && t.entries == before.table - {sessionId}
      case Memcached(c) => before.CacheSnapshot? && c.reachable && c.entries == before.cache - {sessionId}
    }

    /** `_save(d)`: nothing when clean; otherwise store the record of `d` and
        clear the flag, which stays set when the write raises. */
    method Save(d: Data) returns (o: Outcome)
      modifies this`dirty, backend.Target()
      ensures !old(dirty) ==> o == Pass && !dirty && unchanged(backend.Target())
      ensures old(dirty) && old(CanWrite()) ==> o == Pass && !dirty && Wrote(old(Snapshot()), d)
      ensures old(dirty) && !old(CanWrite()) ==>
                o == Fail(CacheUnavailable) && dirty && unchanged(backend.Target())
    {
      if !dirty {
        return Pass;
      }
      var text := RecordText(d);
      match backend
      case Memory(t) =>
        t.Put(sessionId, text);
        dirty := false;
        o := Pass;
      case Memcached(c) =>
        o := c.Set(sessionId, text, MemcachedExpiry);
        if o.Pass? {
          dirty := false;
        }
    }

    /** `set(name, value)`: update the data, mark dirty, save. */
    method Set(name: string, value: Value) returns (o: Outcome)
      modifies this, backend.Target()
      ensures data == old(data)[name := value]
      ensures old(CanWrite()) ==> o == Pass && !dirty && Wrote(old(Snapshot()), data)
      ensures !old(CanWrite()) ==> o == Fail(CacheUnavailable) && dirty && unchanged(backend.Target())
    {
      assert backend.Target() != this;
      data := data[name := value];
      dirty := true;
      o := Save(data);
    }

    /** `delete(name)`: KeyError before anything changes when the key is
        absent; otherwise drop the key, mark dirty, save. */
    method Delete(name: string) returns (o: Outcome)
      modifies this, backend.Target()
      ensures name !in old(data) ==>
                o == Fail(KeyError) && unchanged(this) && unchanged(backend.Target())
      ensures name in old(data) ==> data == old(data) - {name}
      ensures name in old(data) && old(CanWrite()) ==> o == Pass && !dirty && Wrote(old(Snapshot()), data)
      ensures name in old(data) && !old(CanWrite()) ==>
                o == Fail(CacheUnavailable) && dirty && unchanged(backend.Target())
    {
      if name !in data {
        return Fail(KeyError);
      }
      assert backend.Target() != this;
      data := data - {name};
      dirty := true;
      o := Save(data);
    }

    /** `remove()`: delete this session's stored record; the in-memory data stays. */
    method Remove() returns (o: Outcome)
      modifies backend.Target()
      ensures old(CanWrite()) ==> o == Pass && Dropped(old(Snapshot()))
      ensures !old(CanWrite()) ==> o == Fail(CacheUnavailable) && unchanged(backend.Target())
    {
      match backend
      case Memory(t) =>
        if sessionId in t.entries {
          t.Remove(sessionId);
        }
        o := Pass;
      case Memcached(c) =>
        o := c.Delete(sessionId);
    }

    /** Two saves with no change between them write at most once: once the
        first has succeeded, the second finds the flag clean and leaves the
        backend as the first left it (`mid`). */
    method SaveTwice(d: Data) returns (o1: Outcome, o2: Outcome, ghost mid: StoreSnapshot)
      modifies this`dirty, backend.Target()
      ensures !old(dirty) || old(CanWrite()) ==> o1 == Pass && o2 == Pass && !dirty
      ensures o1 == Pass ==> Snapshot() == mid
      ensures !old(dirty) ==> unchanged(backend.Target())
      ensures old(dirty) && old(CanWrite()) ==> Wrote(old(Snapshot()), d)
      ensures old(dirty) && !old(CanWrite()) ==>
                o1 == o2 == Fail(CacheUnavailable) && dirty && unchanged(backend.Target())
    {
      o1 := Save(d);
      mid := Snapshot();
      o2 := Save(d);
    }
  }

  /** `MemoryDriver.load(session_id, dictionary, settings)`: errors propagate. */
  method LoadMemory(sessionId: string, table: MemoryTable, options: Kwargs) returns (r: Result<Driver>)
    ensures r.Err? <==> LoadedData(table.Get(sessionId), options).Err?
    ensures r.Err? ==> r.error == LoadedData(table.Get(sessionId), options).error
    ensures r.Ok? ==> fresh(r.value) && r.value.sessionId == sessionId && r.value.backend == Memory(table)
    ensures r.Ok? ==> r.value.data == LoadedData(table.Get(sessionId), options).value && !r.value.dirty
  {
    var stored := table.Get(sessionId);
    match LoadedData(stored, options)
    case Err(e) =>
      r := Err(e);
    case Ok(d) =>
      var driver := new Driver(sessionId, Memory(table), d);
      r := Ok(driver);
  }

  /** `MemcachedDriver.load(session_id, connection, settings)`: any exception,
      from the client or from decoding, gives `None`. */
  method LoadMemcached(sessionId: string, client: CacheClient, options: Kwargs) returns (d: Driver?)
    ensures d != null <==> client.reachable && LoadedData(client.Lookup(sessionId), options).Ok?
    ensures d != null ==> fresh(d) && d.sessionId == sessionId && d.backend == Memcached(client)
    ensures d != null ==> d.data == LoadedData(client.Lookup(sessionId), options).value && !d.dirty
  {
    var got := client.Get(sessionId);
    if got.Err? {
      return null;
    }
    match LoadedData(got.value, options)
    case Err(_) =>
      d := null;
    case Ok(data) =>
      d := new Driver(sessionId, Memcached(client), data);
  }
}
