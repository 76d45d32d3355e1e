/** Values of Qt's JSON classes (QJsonValue, QJsonArray, QJsonObject,
    QJsonDocument) as far as the mod decoders use them.

    Every accessor is total, as in Qt: asking a value for a type it does not
    have yields that type's empty default, and looking up a missing key, or
    element 0 of an empty array, yields `JUndefined`. Numbers are modelled as
    integers. */
module QtJson {
  import opened Wrappers

  datatype Json =
    | JUndefined
    | JNull
    | JBool(b: bool)
    | JNumber(n: int)
    | JString(s: string)
    | JArray(items: seq<Json>)
    | JObject(fields: map<string, Json>)

  /** A parsed document; `None` is a text that did not parse. */
  type Document = Option<Json>

  /** QJsonObject::value: the stored value, or Undefined for a missing key. */
  function Value(o: map<string, Json>, key: string): Json
  {
    if key in o then o[key] else JUndefined
  }

  /** QJsonArray::at: the element, or Undefined past the end. */
  function At(a: seq<Json>, i: nat): Json
  {
    if i < |a| then a[i] else JUndefined
  }

  /** QJsonValue::toString(): the string, or "" for any other type. */
  function ToString(v: Json): string
  {
    if v.JString? then v.s else ""
  }

  /** QJsonValue::toArray(): the array, or the empty array. */
  function ToArray(v: Json): seq<Json>
  {
    if v.JArray? then v.items else []
  }

  /** QJsonValue::toObject(): the object, or the empty object. */
  function ToObject(v: Json): map<string, Json>
  {
    if v.JObject? then v.fields else map[]
  }

  /** QJsonValue::toDouble(): the number, or 0 for any other type. */
  function ToDouble(v: Json): int
  {
    if v.JNumber? then v.n else 0
  }

  const INT_MIN: int := -0x8000_0000
  const INT_MAX: int := 0x7FFF_FFFF

  /** QJsonValue::toInt(default): the number when it fits a 32-bit int,
      otherwise the default. */
  function ToInt(v: Json, default: int): int
  {
    if v.JNumber? && INT_MIN <= v.n <= INT_MAX then v.n else default
  }

  /** QJsonDocument::object(): the top-level object, or the empty object for an
      array document or a failed parse. */
  function DocObject(doc: Document): map<string, Json>
  {
    if doc.Some? && doc.value.JObject? then doc.value.fields else map[]
  }
}
