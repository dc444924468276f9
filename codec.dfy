/** `Driver.serialize` / `Driver.deserialize` (rossion.py:128-134).

    The source pickles a record and base64-encodes the bytes. This module
    replaces both layers by one text encoding that has the same
    law: decoding the text of a record gives the record back, and any text
    that does not decode is reported as corrupt instead of crashing.

    The text is a sequence of tokens; each token is written with `\` and
    `;` escaped and ends with `;`. A record is written as
      ("F" name ("N" | "T" ("K" key value)* ".")) * "."
    and a value as "n", "t", "f", "i" decimal or "s" text. Dictionary keys
    are written in ascending order, so every record has exactly one text. */
module Codec {
  import opened Values
  import opened KeyOrder

  // ---------------------------------------------------------------------
  // Token layer

  /** A token with `\\` and `;` escaped by a preceding `\\`. */
  function Escape(t: string): string
  {
    if t == [] then []
    else (if t[0] == '\\' || t[0] == ';' then ['\\', t[0]] else [t[0]]) + Escape(t[1..])
  }

  /** The text of a token sequence. */
  function Join(ts: seq<string>): (s: string)
    ensures ts != [] ==> s != []
  {
    if ts == [] then [] else Escape(ts[0]) + [';'] + Join(ts[1..])
  }

  /** Reads one token off the front of `s`: the token and the text after it. */
  function ReadToken(s: string): (r: Option<(string, string)>)
    ensures r.Some? ==> |r.value.1| < |s|
    decreases |s|
  {
    if s == [] then None
    else if s[0] == ';' then Some(([], s[1..]))
    else if s[0] == '\\' then
      if |s| < 2 then None
      else match ReadToken(s[2..])
        case None => None
        case Some((t, rest)) => Some(([s[1]] + t, rest))
    else match ReadToken(s[1..])
      case None => None
      case Some((t, rest)) => Some(([s[0]] + t, rest))
  }

  /** Splits a text into its tokens; `None` for a text that does not end a token. */
  function Split(s: string): Option<seq<string>>
    decreases |s|
  {
    if s == [] then Some([])
    else match ReadToken(s)
      case None => None
      case Some((t, rest)) =>
        match Split(rest)
        case None => None
        case Some(ts) => Some([t] + ts)
  }

  lemma {:induction false} ReadTokenOfEscape(t: string, rest: string)
    ensures ReadToken(Escape(t) + [';'] + rest) == Some((t, rest))
  {
    if t == [] {
      assert Escape(t) + [';'] + rest == [';'] + rest;
    } else {
      var head := if t[0] == '\\' || t[0] == ';' then ['\\', t[0]] else [t[0]];
      var s := Escape(t) + [';'] + rest;
      var tail := Escape(t[1..]) + [';'] + rest;
      assert s == head + tail;
      ReadTokenOfEscape(t[1..], rest);
      assert [t[0]] + t[1..] == t;
      if t[0] == '\\' || t[0] == ';' {
        assert s[2..] == tail;
      } else {
        assert s[1..] == tail;
      }
    }
  }

  lemma {:induction false} SplitJoin(ts: seq<string>)
    ensures Split(Join(ts)) == Some(ts)
  {
    if ts != [] {
      var rest := Join(ts[1..]);
      ReadTokenOfEscape(ts[0], rest);
      SplitJoin(ts[1..]);
      assert [ts[0]] + ts[1..] == ts;
    }
  }

  // ---------------------------------------------------------------------
  // Decimal integers

  function DigitChar(d: nat): char
    requires d < 10
  {
    "0123456789"[d]
  }

  predicate IsDigit(c: char)
  {
    '0' <= c <= '9'
  }

  function DigitValue(c: char): nat
    requires IsDigit(c)
  {
    (c as int) - ('0' as int)
  }

  /** The decimal digits of `n`, most significant first, without leading zeros. */
  function NatText(n: nat): (s: string)
    ensures s != [] && forall i :: 0 <= i < |s| ==> IsDigit(s[i])
    decreases n
  {
    if n < 10 then [DigitChar(n)] else NatText(n / 10) + [DigitChar(n % 10)]
  }

  function DigitsValue(s: string): nat
    requires forall i :: 0 <= i < |s| ==> IsDigit(s[i])
  {
    if s == [] then 0 else DigitsValue(s[..|s| - 1]) * 10 + DigitValue(s[|s| - 1])
  }

  function ParseNat(s: string): Option<nat>
  {
    if s != [] && forall i :: 0 <= i < |s| ==> IsDigit(s[i]) then Some(DigitsValue(s)) else None
  }

  function IntText(i: int): string
  {
    if i < 0 then ['-'] + NatText(-i) else NatText(i)
  }

  function ParseInt(s: string): Option<int>
  {
    if s != [] && s[0] == '-' then
      match ParseNat(s[1..])
      case None => None
      case Some(n) => Some(-(n as int))
    else match ParseNat(s)
      case None => None
      case Some(n) => Some(n)
  }

  lemma {:induction false} NatTextValue(n: nat)
    ensures DigitsValue(NatText(n)) == n
    decreases n
  {
    if n >= 10 {
      var s := NatText(n);
      NatTextValue(n / 10);
      assert s[..|s| - 1] == NatText(n / 10);
    }
  }

  lemma NatTextRoundTrip(n: nat)
    ensures ParseNat(NatText(n)) == Some(n)
  {
    NatTextValue(n);
  }

  lemma IntTextRoundTrip(i: int)
    ensures ParseInt(IntText(i)) == Some(i)
  {
    if i < 0 {
      var t := NatText(-i);
      NatTextRoundTrip(-i);
      assert IntText(i) == ['-'] + t;
      assert (['-'] + t)[1..] == t;
    } else {
      NatTextRoundTrip(i);
      assert IsDigit(NatText(i)[0]);
    }
  }

  // ---------------------------------------------------------------------
  // Values, tables and records as tokens
  //
  // Each encoder takes the tokens that follow what it writes (`next`), so
  // that the parser's "rest" is literally the encoder's `next`.

  datatype Parsed<+T> = Parsed(value: T, rest: seq<string>)

  function EncodeValue(v: Value, next: seq<string>): seq<string>
  {
    match v
    case NoneValue => ["n"] + next
    case BoolValue(b) => (if b then ["t"] else ["f"]) + next
    case IntValue(i) => ["i", IntText(i)] + next
    case StrValue(s) => ["s", s] + next
  }

  function ParseValue(ts: seq<string>): (r: Option<Parsed<Value>>)
    ensures r.Some? ==> |r.value.rest| < |ts|
  {
    if ts == [] then None
    else if ts[0] == "n" then Some(Parsed(NoneValue, ts[1..]))
    else if ts[0] == "t" then Some(Parsed(BoolValue(true), ts[1..]))
    else if ts[0] == "f" then Some(Parsed(BoolValue(false), ts[1..]))
    else if ts[0] == "i" && |ts| >= 2 then
      match ParseInt(ts[1])
      case None => None
      case Some(i) => Some(Parsed(IntValue(i), ts[2..]))
    else if ts[0] == "s" && |ts| >= 2 then Some(Parsed(StrValue(ts[1]), ts[2..]))
    else None
  }

  lemma ValueRoundTrip(v: Value, rest: seq<string>)
    ensures ParseValue(EncodeValue(v, rest)) == Some(Parsed(v, rest))
  {
    var ts := EncodeValue(v, rest);
    if v.IntValue? {
      IntTextRoundTrip(v.i);
      assert ts[2..] == rest;
    } else if v.StrValue? {
      assert ts[2..] == rest;
    } else {
      assert ts[1..] == rest;
    }
  }

  /** The entries of `m` under the keys `keys`, built the way the parser builds them. */
  function Restrict<V>(keys: seq<string>, m: map<string, V>): (r: map<string, V>)
    requires forall k :: k in keys ==> k in m
    ensures forall k :: k in r <==> k in keys
    ensures forall k :: k in r ==> r[k] == m[k]
  {
    if keys == [] then map[] else Restrict(keys[1..], m)[keys[0] := m[keys[0]]]
  }

  lemma RestrictAll<V>(keys: seq<string>, m: map<string, V>)
    requires forall k :: k in keys <==> k in m
    ensures Restrict(keys, m) == m
  {
  }

  /** The entries of `d` under the keys `keys`, in that order, then ".". */
  function EncodeEntries(keys: seq<string>, d: Data, next: seq<string>): seq<string>
    requires forall k :: k in keys ==> k in d
  {
    if keys == [] then ["."] + next
    else ["K", keys[0]] + EncodeValue(d[keys[0]], EncodeEntries(keys[1..], d, next))
  }

  /** Reads entries up to the closing "."; a key read twice keeps its first value. */
  function ParseEntries(ts: seq<string>): (r: Option<Parsed<Data>>)
    ensures r.Some? ==> |r.value.rest| < |ts|
    decreases |ts|
  {
    if ts == [] then None
    else if ts[0] == "." then Some(Parsed(map[], ts[1..]))
    else if ts[0] == "K" && |ts| >= 2 then
      match ParseValue(ts[2..])
      case None => None
      case Some(Parsed(v, rest)) =>
        match ParseEntries(rest)
        case None => None
        case Some(Parsed(d, rest')) => Some(Parsed(d[ts[1] := v], rest'))
    else None
  }

  lemma {:induction false} EntriesRoundTrip(keys: seq<string>, d: Data, rest: seq<string>)
    requires forall k :: k in keys ==> k in d
    ensures ParseEntries(EncodeEntries(keys, d, rest)) == Some(Parsed(Restrict(keys, d), rest))
  {
    var ts := EncodeEntries(keys, d, rest);
    if keys == [] {
      assert ts[1..] == rest;
    } else {
      var k0 := keys[0];
      var after := EncodeEntries(keys[1..], d, rest);
      assert ts[0] == "K" && ts[1] == k0 && ts[2..] == EncodeValue(d[k0], after);
      ValueRoundTrip(d[k0], after);
      EntriesRoundTrip(keys[1..], d, rest);
      assert Restrict(keys, d) == Restrict(keys[1..], d)[k0 := d[k0]];
    }
  }

  function EncodeTable(d: Data, next: seq<string>): seq<string>
  {
    EncodeEntries(SortedKeys(d.Keys), d, next)
  }

  lemma TableRoundTrip(d: Data, rest: seq<string>)
    ensures ParseEntries(EncodeTable(d, rest)) == Some(Parsed(d, rest))
  {
    var keys := SortedKeys(d.Keys);
    EntriesRoundTrip(keys, d, rest);
    RestrictAll(keys, d);
  }

  function EncodeField(f: Field, next: seq<string>): seq<string>
  {
    match f
    case NoneField => ["N"] + next
    case TableField(d) => ["T"] + EncodeTable(d, next)
  }

  function ParseField(ts: seq<string>): (r: Option<Parsed<Field>>)
    ensures r.Some? ==> |r.value.rest| < |ts|
  {
    if ts == [] then None
    else if ts[0] == "N" then Some(Parsed(NoneField, ts[1..]))
    else if ts[0] == "T" then
      match ParseEntries(ts[1..])
      case None => None
      case Some(Parsed(d, rest)) => Some(Parsed(TableField(d), rest))
    else None
  }

  lemma FieldRoundTrip(f: Field, rest: seq<string>)
    ensures ParseField(EncodeField(f, rest)) == Some(Parsed(f, rest))
  {
    var ts := EncodeField(f, rest);
    if f.TableField? {
      assert ts[1..] == EncodeTable(f.table, rest);
      TableRoundTrip(f.table, rest);
    } else {
      assert ts[1..] == rest;
    }
  }

  /** The fields of `kw` under the names `names`, in that order, then ".". */
  function EncodeFields(names: seq<string>, kw: Kwargs, next: seq<string>): seq<string>
    requires forall k :: k in names ==> k in kw
  {
    if names == [] then ["."] + next
    else ["F", names[0]] + EncodeField(kw[names[0]], EncodeFields(names[1..], kw, next))
  }

  /** Reads fields up to the closing "."; a name read twice keeps its first field. */
  function ParseFields(ts: seq<string>): (r: Option<Parsed<Kwargs>>)
    ensures r.Some? ==> |r.value.rest| < |ts|
    decreases |ts|
  {
    if ts == [] then None
    else if ts[0] == "." then Some(Parsed(map[], ts[1..]))
    else if ts[0] == "F" && |ts| >= 2 then
      match ParseField(ts[2..])
      case None => None
      case Some(Parsed(f, rest)) =>
        match ParseFields(rest)
        case None => None
        case Some(Parsed(kw, rest')) => Some(Parsed(kw[ts[1] := f], rest'))
    else None
  }

  lemma {:induction false} FieldsRoundTrip(names: seq<string>, kw: Kwargs, rest: seq<string>)
    requires forall k :: k in names ==> k in kw
    ensures ParseFields(EncodeFields(names, kw, rest)) == Some(Parsed(Restrict(names, kw), rest))
  {
    var ts := EncodeFields(names, kw, rest);
    if names == [] {
      assert ts[1..] == rest;
    } else {
      var k0 := names[0];
      var after := EncodeFields(names[1..], kw, rest);
      assert ts[0] == "F" && ts[1] == k0 && ts[2..] == EncodeField(kw[k0], after);
      FieldRoundTrip(kw[k0], after);
      FieldsRoundTrip(names[1..], kw, rest);
      assert Restrict(names, kw) == Restrict(names[1..], kw)[k0 := kw[k0]];
    }
  }

  // ---------------------------------------------------------------------
  // serialize / deserialize

  /** `Driver.serialize`: the text of a keyword record. */
  function Serialize(kw: Kwargs): (s: string)
    ensures s != []
  {
    Join(EncodeFields(SortedKeys(kw.Keys), kw, []))
  }

  /** `Driver.deserialize`: the record a text encodes, or `CorruptSessionData`. */
  function Deserialize(s: string): (r: Result<Kwargs>)
    ensures r.Err? ==> r.error == CorruptSessionData
  {
    match Split(s)
    case None => Err(CorruptSessionData)
    case Some(ts) =>
      match ParseFields(ts)
      case None => Err(CorruptSessionData)
      case Some(Parsed(kw, rest)) => if rest == [] then Ok(kw) else Err(CorruptSessionData)
  }

  /** Decoding the text of a record gives the record back. */
  lemma RoundTrip(kw: Kwargs)
    ensures Deserialize(Serialize(kw)) == Ok(kw)
  {
    var names := SortedKeys(kw.Keys);
    var ts := EncodeFields(names, kw, []);
    SplitJoin(ts);
    assert Split(Serialize(kw)) == Some(ts);
    FieldsRoundTrip(names, kw, []);
    RestrictAll(names, kw);
    assert ParseFields(ts) == Some(Parsed(kw, []));
  }

  /** Two records with the same text are the same record. */
  lemma SerializeInjective(a: Kwargs, b: Kwargs)
    requires Serialize(a) == Serialize(b)
    ensures a == b
  {
    RoundTrip(a);
    RoundTrip(b);
  }
}
