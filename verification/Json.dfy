/** JSON values, as far as the RPC layer looks into them. */
module Json {
  type Int32 = i: int | -0x8000_0000 <= i < 0x8000_0000
  type Int64 = i: int | -0x8000_0000_0000_0000 <= i < 0x8000_0000_0000_0000

  datatype Value =
    | Null
    | Bool(b: bool)
    | I32(i: Int32)
    | I64(l: Int64)
    | Double
    | Str(s: string)
    | Arr(items: seq<Value>)
    | Obj(members: map<string, Value>)

  predicate Has(v: Value, key: string) {
    v.Obj? && key in v.members
  }

  /** The member, where there is one. */
  function Member(v: Value, key: string): Value {
    if Has(v, key) then v.members[key] else Null
  }

  function Size(v: Value): nat {
    match v
    case Arr(items) => |items|
    case Obj(members) => |members|
    case _ => 0
  }
}
