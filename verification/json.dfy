/** JSON-like values as Python sees them after `response.json()`: objects
    are insertion-ordered dicts, kept here as a sequence of fields. */
module Json {
  import opened Outcomes

  datatype Json =
    | JNull
    | JBool(b: bool)
    | JInt(i: int)
    | JFloat(x: real)
    | JStr(s: string)
    | JArr(items: seq<Json>)
    | JObj(fields: seq<Field>)

  datatype Field = Field(key: string, value: Json)

  /** `d.get(key)` on a decoded object. A JSON text that repeats a key
      decodes to the last occurrence, so the search runs from the end. */
  function Lookup(fields: seq<Field>, key: string): (r: Option<Json>)
    ensures r.Some? <==> exists i :: 0 <= i < |fields| && fields[i].key == key
    // the value is the last occurrence of the key
    ensures r.Some? ==> exists i :: && 0 <= i < |fields| && fields[i].key == key && fields[i].value == r.value
                                    && forall j :: i < j < |fields| ==> fields[j].key != key
    decreases |fields|
  {
    if |fields| == 0 then None
    else if fields[|fields| - 1].key == key then Some(fields[|fields| - 1].value)
    else
      var r := Lookup(fields[..|fields| - 1], key);
      assert forall i :: 0 <= i < |fields| - 1 ==> fields[..|fields| - 1][i] == fields[i];
      r
  }
}
