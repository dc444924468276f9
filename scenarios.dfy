/** Whole sessions driven through `SessionManager`: what one request writes,
    the next request with the same id reads back. */
module Scenarios {
  import opened Values
  import opened Storage
  import opened Drivers
  import opened Sessions
  import Hex

  /** A value written through one manager is read back by a second manager
      opened on the same dictionary with the first one's id. */
  method MemoryReload(entropy: seq<Hex.byte>) returns (r: Result<Value>)
    requires |entropy| == IdBytes
    ensures r == Ok(IntValue(42))
  {
    var table := new MemoryTable();
    var settings := Settings(None, Memory(table), None);
    var first := SessionManager.Open(None, settings, entropy);
    var m := first.value;
    var o := m.SetItem("answer", IntValue(42));
    SessionIdChoice(None, entropy);
    LoadSavedRecord(map["answer" := IntValue(42)], map[]);
    var second := SessionManager.Open(Some(m.sessionId), settings, entropy);
    var n := second.value;
    r := n.GetItem("answer");
  }

  /** One write through a memcached-backed manager leaves exactly one cache
      entry: the session's record, with the one-day expiry. */
  method MemcachedWrite(entropy: seq<Hex.byte>) returns (id: string, entries: map<string, CacheEntry>)
    requires |entropy| == IdBytes
    ensures id == Hex.Encode(entropy)
    ensures entries == map[id := CacheEntry(RecordText(map["user" := StrValue("ann")]), 86399)]
  {
    var client := new CacheClient(true);
    var settings := Settings(Some("memcached"), Memcached(client), None);
    var mounted := SessionManager.Open(None, settings, entropy);
    var m := mounted.value;
    var o := m.SetItem("user", StrValue("ann"));
    MemcachedExpiryIsOneDay();
    id, entries := m.sessionId, client.entries;
  }

  /** With the cache server down the manager opens without a driver, and
      every read reports that. */
  method MemcachedDown(entropy: seq<Hex.byte>) returns (r: Result<nat>)
    requires |entropy| == IdBytes
    ensures r == Err(NoDriver)
  {
    var client := new CacheClient(false);
    var settings := Settings(Some("memcached"), Memcached(client), None);
    var mounted := SessionManager.Open(None, settings, entropy);
    var m := mounted.value;
    r := m.Len();
  }

  /** After `remove()` a new manager with the same id starts from the
      options' data again, here none. */
  method RemoveThenReload(entropy: seq<Hex.byte>) returns (r: Result<nat>)
    requires |entropy| == IdBytes
    ensures r == Ok(0)
  {
    var table := new MemoryTable();
    var settings := Settings(None, Memory(table), None);
    var first := SessionManager.Open(None, settings, entropy);
    var m := first.value;
    var o := m.SetItem("answer", IntValue(42));
    var gone := m.driver.Remove();
    SessionIdChoice(None, entropy);
    var second := SessionManager.Open(Some(m.sessionId), settings, entropy);
    var n := second.value;
    r := n.Len();
  }

  /** Proof step for `OverwriteThenReload`: a map identity, not a property of sessions. */
  lemma Overwrite(k: string, v1: Value, v2: Value)
    ensures map[k := v1][k := v2] == map[k := v2]
  {
  }

  /** Write-through durability: after two writes to one key, loading the
      same id from the same dictionary sees only the second value. */
  method OverwriteThenReload(id: string) returns (r: Result<Data>)
    ensures r == Ok(map["user_id" := IntValue(2)])
  {
    var table := new MemoryTable();
    LoadMiss(None, map[]);
    var first := LoadMemory(id, table, map[]);
    var d := first.value;
    var o1 := d.Set("user_id", IntValue(1));
    var o2 := d.Set("user_id", IntValue(2));
    Overwrite("user_id", IntValue(1), IntValue(2));
    LoadSavedRecord(map["user_id" := IntValue(2)], map[]);
    var second := LoadMemory(id, table, map[]);
    r := Ok(second.value.data);
  }

  /** `keys()` and `values()` called one after the other line up: the i-th
      value is the one stored under the i-th key. */
  method KeysMatchValues(m: SessionManager) returns (ks: Result<seq<string>>, vs: Result<seq<Value>>)
    requires m.driver != null
    ensures ks.Ok? && vs.Ok? && |ks.value| == |vs.value|
    ensures forall i :: 0 <= i < |ks.value| ==> ks.value[i] in m.driver.data && vs.value[i] == m.driver.data[ks.value[i]]
  {
    ks := m.Keys();
    vs := m.Values();
  }
}
