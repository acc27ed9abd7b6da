/** Parsed JSON values and the accessors of `serde_json::Value` the decoders use. */
module Json {
  import opened Wrappers

  datatype Json =
    | Null
    | Boolean(value: bool)
    | Integer(number: int)
    | Float(decimal: real)
    | Str(text: string)
    | Array(items: seq<Json>)
    | Object(fields: map<string, Json>)
  {
    function Get(key: string): Option<Json> {
      if Object? && key in fields then Some(fields[key]) else None
    }

    function AsStr(): Option<string> {
      if Str? then Some(text) else None
    }

    function AsU64(): Option<nat> {
      if Integer? && 0 <= number < 0x1_0000_0000_0000_0000 then Some(number) else None
    }

    /** `get(key).and_then(as_str)`. */
    function Text(key: string): (r: Option<string>)
      ensures r.Some? <==> Object? && key in fields && fields[key].Str?
      ensures r.Some? ==> fields[key] == Str(r.value)
    {
      match Get(key)
      case Some(v) => v.AsStr()
      case None => None
    }

    /** The string at `outer.key`, if both are there. */
    function NestedText(outer: string, key: string): (r: Option<string>)
      ensures r == if Object? && outer in fields then fields[outer].Text(key) else None
    {
      match Get(outer)
      case Some(v) => v.Text(key)
      case None => None
    }

    function Elements(key: string): (r: seq<Json>)
      ensures Object? && key in fields && fields[key].Array? ==> fields[key] == Array(r)
      ensures !(Object? && key in fields && fields[key].Array?) ==> r == []
    {
      match Get(key)
      case Some(v) => if v.Array? then v.items else []
      case None => []
    }

    function Number(key: string): (r: nat)
      ensures r < 0x1_0000_0000_0000_0000
      ensures Object? && key in fields && fields[key].Integer? && 0 <= fields[key].number < 0x1_0000_0000_0000_0000 ==> r == fields[key].number
      ensures !(Object? && key in fields && fields[key].Integer? && 0 <= fields[key].number < 0x1_0000_0000_0000_0000) ==> r == 0
    {
      match Get(key)
      case Some(v) => v.AsU64().GetOr(0)
      case None => 0
    }
  }
}
