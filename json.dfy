/** JSON values (serde_json's `Value`) and the text codec, kept abstract. */
module Json {
  import opened Wrappers

  /** An IEEE-754 double, kept opaque as its bit pattern: nothing here computes with floats. */
  datatype F64 = F64(bits: bv64)

  /** A JSON value. Objects are maps from keys to values, as serde_json's `Map`. */
  datatype Json =
    | JNull
    | JBool(b: bool)
    | JInt(i: int)
    | JFloat(f: F64)
    | JStr(s: string)
    | JArr(items: seq<Json>)
    | JObj(fields: map<string, Json>)

  /** serde_json's `to_string` and `from_str`: encoding may fail (`None`), parsing may reject
      its input (`None`). Nothing else about the text form is assumed. */
  datatype Codec = Codec(encode: Json -> Option<string>, decode: string -> Option<Json>)

  /** Parsing inverts encoding on every value that encodes. */
  ghost predicate Faithful(c: Codec) {
    forall j :: c.encode(j).Some? ==> c.decode(c.encode(j).value) == Some(j)
  }

  /** Compact output: an encoding never contains a raw line break. */
  ghost predicate NoNewlines(c: Codec) {
    forall j :: c.encode(j).Some? ==> '\n' !in c.encode(j).value
  }

  /** The empty object encodes as `{}`, which is the text the stores write when encoding fails. */
  predicate EncodesEmptyObject(c: Codec) {
    c.encode(JObj(map[])) == Some("{}")
  }

  /** The text stored for a nullable JSON column: `v.map(|x| to_string(x).unwrap_or(fallback))`.
      The relational store's fallback is `{}`, ClickHouse's is the empty string. */
  function EncodeColumn(c: Codec, v: Option<Json>, fallback: string): Option<string> {
    match v
    case None => None
    case Some(x) => Some(c.encode(x).GetOr(fallback))
  }

  /** Reading a nullable JSON column back: `col.map(|raw| from_str(raw).unwrap_or(Value::Null))`. */
  function DecodeColumn(c: Codec, col: Option<string>): Option<Json> {
    match col
    case None => None
    case Some(raw) => Some(c.decode(raw).GetOr(JNull))
  }

  /** A stored JSON column reads back as what was written: null stays null, a value that encodes
      comes back unchanged, and one that failed to encode comes back as whatever its fallback text
      parses to (`Null` when the fallback does not parse). */
  lemma ColumnRoundTrip(c: Codec, v: Option<Json>, fallback: string)
    requires Faithful(c)
    ensures v.None? ==> DecodeColumn(c, EncodeColumn(c, v, fallback)) == None
    ensures v.Some? && c.encode(v.value).Some? ==> DecodeColumn(c, EncodeColumn(c, v, fallback)) == v
    ensures v.Some? && c.encode(v.value).None? ==>
      DecodeColumn(c, EncodeColumn(c, v, fallback)) == Some(c.decode(fallback).GetOr(JNull))
  {
  }

  /** With the relational store's `{}` fallback, a value that fails to encode reads back as the
      empty object; an unparsable column reads back as `Null`. */
  lemma FallbackReadsAsEmptyObject(c: Codec, x: Json)
    requires Faithful(c) && EncodesEmptyObject(c)
    requires c.encode(x).None?
    ensures DecodeColumn(c, EncodeColumn(c, Some(x), "{}")) == Some(JObj(map[]))
  {
    assert c.encode(JObj(map[])).Some?;
  }

  /** Text that does not parse reads back as `Null`, never as an error. */
  lemma UnparsableReadsAsNull(c: Codec, raw: string)
    requires c.decode(raw).None?
    ensures DecodeColumn(c, Some(raw)) == Some(JNull)
  {
  }
}
