# rossion session persistence, modelled in Dafny

rossion keeps Tornado sessions on the server. A `SessionManager` takes the
session id from the cookie, or makes a new one from 32 random bytes. It mounts
a driver chosen by the `engine` setting and behaves as a dictionary backed by
that driver. Every write or delete on the driver updates its in-memory `_data`,
sets `_dirty` and saves straight away. A save writes
`serialize({'data': data})` under the session id, into either a process-wide
dictionary (`MemoryDriver`) or a memcached client (`MemcachedDriver`, with
expiry `timedelta.max.seconds`).

The model has these modules:

- `Values`: session values, the keyword records drivers are built from, and the error outcomes (`KeyError`, `TypeError`, `AttributeError`, a cache failure, corrupt data).
- `Codec`: `serialize`/`deserialize`, a concrete text encoding with a proved round trip.
- `KeyOrder`: the key order the codec writes entries in.
- `Hex`: the hex rendering in `_generate_session_id`.
- `Storage`: the two backends.
  - `MemoryTable` is the shared dictionary.
  - `CacheClient` is a key→(text, expiry) map. Its calls fail while the server is unreachable.
- `Drivers`: one `Driver` class whose `backend` says which subclass it stands for, plus the two `load` functions and the pure account of what loading yields.
- `Sessions`: `mount_driver` and `SessionManager`.
- `Scenarios`: whole request sequences through the manager and the drivers.

State that the source changes in place is modelled imperatively:

- `Driver` is a class with `data` and `dirty` fields.
- The backends are classes with an `entries` field.
- `SessionManager` holds a `driver` field.

Each method's contract gives the new state exactly. The storage part is stated against a snapshot of the backend's entries taken before the call (`Snapshot`):

- `Wrote(before, d)`: the backend differs from `before` only by the record of `d` stored under this session's id.
- `Dropped(before)`: the backend differs from `before` only by that id being deleted.

Loading does not change storage, so it is stated as a pure function (`LoadedData`), and the two `load` methods are proved against it.

Points where the code behaves differently from what a reader of its documentation might expect, all modelled as the code has them:

- On a stored hit, `load` does not merge the options into the data. The options play no part (`LoadHitIgnoresOptions`). On a miss, only an `options['data']` dictionary seeds the data (`LoadMiss`).
- `MemcachedDriver.load` returns `None` when the client or decoding raises. It does not return an empty driver. Every later manager operation then fails with `AttributeError` (`NoDriver`).
- The memcached expiry is `timedelta.max.seconds`, which is 86399 seconds (one day less one second). It is not the largest timeout (`MemcachedExpiryIsOneDay`).
- `delete` of an absent key raises `KeyError` before anything changes. It is not a no-op.
- `__getitem__` of an absent key raises `KeyError`.
- A corrupt stored record makes `MemoryDriver.load`, and so the manager's constructor, raise. The session is not quietly emptied.
- A decoded record without a `data` entry gives an empty session. It is not reported as corrupt.

## Model

| member | source | states |
|---|---|---|
| `Values.RecordOf` | rossion.py:156 | the persisted record has exactly one key, `data`, holding the session dictionary |
| `Codec.Serialize` | rossion.py:128-130 | the stored text is never empty, so a saved record is always truthy when loaded again |
| `Codec.Deserialize` | rossion.py:132-134 | the only way decoding fails is `CorruptSessionData` |
| `Codec.RoundTrip` | rossion.py:128-134 | `deserialize(serialize(kw)) == kw` for every keyword record |
| `Codec.SerializeInjective` | rossion.py:128-130 | different records never share a stored text |
| `Hex.Encode` | rossion.py:79-80 | the id has two characters per random byte, all lower-case hex digits |
| `Hex.DecodeEncode` | rossion.py:79-80 | the hex id decodes back to exactly the random bytes it was made from |
| `Hex.EncodeInjective` | rossion.py:79-80 | different random bytes give different ids |
| `Storage.MemoryTable.Get` | rossion.py:143 | `dictionary.get(sid)` finds a value exactly when the id is a key, and finds the stored value |
| `Storage.MemoryTable.Put` | rossion.py:158 | `dictionary[sid] = value` stores the text under the key and changes no other key |
| `Storage.MemoryTable.Remove` | rossion.py:149-150 | `del dictionary[sid]`, called only for a present key, drops that key alone |
| `Storage.CacheClient.Get` | rossion.py:182 | `connection.get(sid)` gives the stored text or `None` while the server is reachable, and raises otherwise |
| `Storage.CacheClient.Set` | rossion.py:201-202 | `connection.set` stores the text with its expiry under the key and changes no other key; it raises and changes nothing while unreachable |
| `Storage.CacheClient.Delete` | rossion.py:189-190 | `connection.delete` removes that key only (a missing key is fine); it raises and changes nothing while unreachable |
| `Drivers.MemcachedExpiryIsOneDay` | rossion.py:201-202 | the memcached expiry is 86399 seconds: less than a day, far less than `timedelta.max` |
| `Drivers.RecordText` | rossion.py:156 | the text `_save` stores is never empty |
| `Drivers.ConstructRecord` | rossion.py:86-92 | building a driver from a saved record's keywords raises nothing and gives back that record's data |
| `Drivers.LoadSavedRecord` | rossion.py:141-146 | loading the stored record of `d` gives `d`, whatever the options |
| `Drivers.LoadMiss` | rossion.py:141-146 | on a missing or empty stored value: `TypeError` if the options name `self`, `session_id` or `storage`; else the `options['data']` dictionary if there is one; else empty data; nothing is merged |
| `Drivers.LoadHitIgnoresOptions` | rossion.py:144-145 | with a truthy stored value the options do not affect the outcome |
| `Drivers.LoadOutcomes` | rossion.py:141-146 | loading fails only as corrupt data or `TypeError`; non-empty data comes from the stored record's `data` or from `options['data']` |
| `Drivers.Driver.constructor` | rossion.py:86-92 | a new driver holds the given id, storage and data, and is clean |
| `Drivers.Driver.Get` | rossion.py:105-106 | `get(name, default)` is the stored value for a present key and `default` otherwise |
| `Drivers.Driver.Save` | rossion.py:152-160 | clean: storage untouched; dirty: the record of `d` is written under the id only, and the flag clears; a failed memcached write (rossion.py:192-203) leaves storage as it was and the flag set |
| `Drivers.Driver.Set` | rossion.py:108-111 | `data[name] = value` with every other key kept; the new data's record is then stored under the id and the flag is clean, or the write failed and the flag stays set |
| `Drivers.Driver.Delete` | rossion.py:113-116 | absent key: `KeyError` with data, flag and storage unchanged; present key: only that key is removed, then the save outcomes as for `Set` |
| `Drivers.Driver.Remove` | rossion.py:148-150 | only the session's stored key is dropped, and nothing happens when it is absent; the in-memory data stays; for memcached (rossion.py:189-190) a client failure changes nothing |
| `Drivers.Driver.SaveTwice` | rossion.py:152-154 | two saves with nothing in between have the effect of at most one write: none when clean, exactly the record of `d` when dirty, and none, with both failing and the flag still set, when the cache is down; when clean or writable both succeed and the flag ends clean; once the first succeeds the second leaves the backend as the first left it |
| `Drivers.LoadMemory` | rossion.py:141-146 | fails exactly when loading the stored value with the options fails, with that error; otherwise a fresh clean driver on the same dictionary with that data; storage unchanged |
| `Drivers.LoadMemcached` | rossion.py:177-187 | `None` exactly when the client is unreachable or loading raises; otherwise a fresh clean driver with the loaded data |
| `Sessions.ChooseLoader` | rossion.py:207-212 | the memcached loader exactly when `engine` is `"memcached"`; otherwise the memory loader |
| `Sessions.OptionsOf` | rossion.py:213 | the options default to the empty dictionary |
| `Sessions.MountDriver` | rossion.py:206-213 | the chosen loader's outcome with the defaulted options; memory errors propagate; memcached never raises but may give `None` |
| `Sessions.SessionIdChoice` | rossion.py:36-38 | a truthy requested id is kept; otherwise the id is 64 lower-case hex digits that decode to the 32 random bytes |
| `Sessions.SessionManager.constructor` | rossion.py:36-39 | the manager holds its id and a driver serving that id |
| `Sessions.SessionManager.Open` | rossion.py:36-39 | the id is chosen as above and the driver is mounted for that id; the constructor fails exactly when mounting raises, with the same error (corrupt stored data or the `TypeError` of a clashing option) |
| `Sessions.SessionManager.Len` | rossion.py:51-52 | the number of keys in the driver's data |
| `Sessions.SessionManager.GetItem` | rossion.py:54-59 | the driver's value for a present key; `KeyError` for an absent one |
| `Sessions.SessionManager.HasKey` | rossion.py:76-77 | true exactly when the key is in the driver's data |
| `Sessions.SessionManager.Keys` | rossion.py:70-71 | every key of the data exactly once, in ascending order |
| `Sessions.SessionManager.Values` | rossion.py:73-74 | one value per key, in the order `Keys` lists them, and every value of the data appears |
| `Sessions.SessionManager.SetItem` | rossion.py:61-62 | forwards to `driver.set`, with its effect on data, flag and storage; nothing beyond the driver and its storage changes |
| `Sessions.SessionManager.DelItem` | rossion.py:64-65 | forwards to `driver.delete`, with its effect on data, flag and storage; nothing beyond the driver and its storage changes |
| `Scenarios.MemoryReload` | rossion.py:141-160 | a value written through one manager is read back by a new manager with the same id and dictionary |
| `Scenarios.MemcachedWrite` | rossion.py:192-203 | one write through a memcached manager leaves exactly one cache entry: the record under the session id with expiry 86399 |
| `Scenarios.MemcachedDown` | rossion.py:181-187 | with the cache server down the manager has no driver and `len` fails |
| `Scenarios.RemoveThenReload` | rossion.py:148-150 | write, `remove()`, then a new manager with the same id sees an empty session |
| `Scenarios.KeysMatchValues` | rossion.py:70-74 | `keys()` then `values()` give sequences of the same length whose i-th value is stored under the i-th key |
| `Scenarios.OverwriteThenReload` | rossion.py:108-111 | after two writes to one key, a fresh load sees only the second value |

## Left out

- pickle and base64 (rossion.py:130, rossion.py:134) are foreign library code. A token encoding with the same round-trip law replaces them. The stored text therefore differs from the source's.
- `Codec.Serialize` does not promise ASCII-safe text the way base64 does. Only `\` and `;` are escaped, so a key or string value containing a newline or any non-ASCII character appears in the stored text as it is.
- Session values are `None`, booleans, integers and strings. Nested containers and other picklable objects are not modelled.
- The `data` keyword of a record or of the options is either `None` or a dictionary. Other types passed as `data` are not modelled.
- `os.urandom` (rossion.py:80) is nondeterministic. The 32 random bytes are a parameter.
- The pylibmc network client, its binary protocol and its non-blocking mode are not modelled. The client is a map that is either reachable or raises on every call. The class docstring's colon-separated fields, IP address and User-Agent (rossion.py:169-174) are not implemented by the code, so they are not modelled either.
- Expiry by the clock is not modelled. The expiry is stored with each cache entry but never counts down.
- `SessionMixin` and `mount_mixin` (rossion.py:215 onwards) are Tornado handler glue: cookies and caching on the handler.
- `__repr__` and `__str__` (rossion.py:45-49) are formatting only.
- The `session_id` property (rossion.py:41-43) is a `const` field. That it never changes is given by the language.
- `__iter__` (rossion.py:67-68) walks the same keys as `keys()`, which is modelled.
- The other mapping methods `MutableMapping` derives (`pop`, `update`, `setdefault` and the rest) are left out. They are built from the modelled `__getitem__`, `__setitem__` and `__delitem__`.
- The `__missing__` hook in `__getitem__` (rossion.py:57-58) applies only to subclasses. No class here defines it, so an absent key raises `KeyError`.
- The base `Driver.load`, `remove` and `_save` (rossion.py:94-99, 118-126) are empty placeholders that are never called. Only the two subclasses' versions are modelled.
- `engine is "memcached"` (rossion.py:209) relies on CPython interning the string. It is modelled as string equality.
- `Sessions.SessionManager.Keys`: Python 2 lists the keys in an arbitrary but fixed order. The model fixes that order as ascending (`KeyOrder.SortedKeys`), and `Values` lists the values in the same order, as Python 2's `keys()` and `values()` line up.
- Aliasing of `options['data']` is not captured. In Python, a miss makes the driver's `_data` the very dictionary passed in the options, so later writes also change the caller's options. The model copies the dictionary.
- A driver's writes through a memcached client that raises are not modelled as exceptions. They become a `Fail` outcome, with the data already updated and the flag still set, just as the state stands when the exception leaves `_save`.
- A manager whose driver is `None` raises `AttributeError` on every mapping operation. The model returns `NoDriver` instead.
- `Sessions.MountDriver` and `Sessions.SessionManager.Open` take well-formed settings only (`StorageFitsEngine`, and `Settings` always has a storage handle and options that are a dictionary). The source checks none of this, and these cases are not modelled:
  - engine `"memcached"` with a plain dictionary as storage: `dict.get` loads fine (rossion.py:182), then the first write raises `AttributeError` (rossion.py:201);
  - no `storage` setting: `None.get` raises `AttributeError` (rossion.py:143);
  - an `options` setting that is `None`: `**None` raises `TypeError` (rossion.py:146).
- setup.py is packaging metadata.
