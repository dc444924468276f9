/** The values a session holds, the keyword records the drivers are built
    from, and the error outcomes of the session layer (rossion.py). */
module Values {

  datatype Option<+T> = None | Some(value: T)

  /** The exceptions the session layer raises or catches. */
  datatype Error =
    | KeyError           // `del data[k]` or `manager[k]` on a key the session lacks
    | CorruptSessionData // a stored record that does not decode
    | ArgumentClash      // TypeError: a keyword given twice to the driver constructor
    | CacheUnavailable   // the memcached client raised
    | NoDriver           // AttributeError: the manager's driver is None

  datatype Result<+T> = Ok(value: T) | Err(error: Error)

  datatype Outcome = Pass | Fail(error: Error)

  /** A value stored under a session key (the scalar part of what pickle accepts). */
  datatype Value = NoneValue | BoolValue(b: bool) | IntValue(i: int) | StrValue(s: string)

  /** The session data: the driver's `_data` dictionary. */
  type Data = map<string, Value>

  /** A keyword argument handed to the driver constructor: `None` or a dictionary. */
  datatype Field = NoneField | TableField(table: Data)

  /** A keyword-argument mapping: the `options` setting, or a decoded stored record. */
  type Kwargs = map<string, Field>

  /** The record a driver persists: `{'data': data}`. */
  function RecordOf(d: Data): (kw: Kwargs)
    ensures kw.Keys == {"data"} && kw["data"] == TableField(d)
  {
    map["data" := TableField(d)]
  }
}
