/** Values shared by the three variants of the backend: optional columns,
    request-body keys as `dict.get` sees them, and JSON documents. */
module Values {

  /** A nullable column or value: SQL NULL / Python None is `None`. */
  datatype Option<+T> = None | Some(value: T)

  /** One key of a JSON request body: missing, present with `null`,
      or present with a value. */
  datatype Field<+T> = Absent | Null | Given(value: T) {

    /** `data.get(key)`: None when the key is missing or null. */
    function Get(): (r: Option<T>)
      ensures r.Some? <==> Given?
      ensures Given? ==> r.value == value
    {
      if Given? then Some(value) else None
    }

    /** `data.get(key, default)`: the default replaces a MISSING key only;
        a key present with `null` still reads as None. */
    function GetOr(default: T): (r: Option<T>)
      ensures r.None? <==> Null?
      ensures Absent? ==> r == Some(default)
      ensures Given? ==> r == Get()
    {
      match this
      case Absent => Some(default)
      case Null => None
      case Given(v) => Some(v)
    }
  }

  /** A JSON document as `jsonify` writes it. */
  datatype Json =
    | JNull
    | JBool(b: bool)
    | JInt(i: int)
    | JStr(s: string)
    | JArr(items: seq<Json>)
    | JObj(fields: map<string, Json>)

  function StrOrNull(o: Option<string>): Json {
    if o.Some? then JStr(o.value) else JNull
  }

  function IntOrNull(o: Option<int>): Json {
    if o.Some? then JInt(o.value) else JNull
  }

  function BoolOrNull(o: Option<bool>): Json {
    if o.Some? then JBool(o.value) else JNull
  }

  /** A Python list of strings as a JSON array. */
  function Strings(ss: seq<string>): Json {
    JArr(seq(|ss|, i requires 0 <= i < |ss| => JStr(ss[i])))
  }
}
