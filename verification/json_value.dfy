/**
 The two faces of a JSON document: `Doc`, what a `hzd::json` object holds in memory, and
 `Value`, what the document means.

 An `unordered_map` is walked in an order of its own choosing.  A `Doc` therefore lists the
 members of every object in the order its map happens to be walked, and a `Value` forgets that
 order.  A statement about every `Doc` is a statement about every iteration order of every map.
 A `char` stands for one byte.
 */
module JsonValue {

  datatype Float64 = Finite(r: real) | Infinite(negative: bool) | NotANumber

  datatype Value =
    | Null
    | Bool(b: bool)
    | Int(n: int)
    | Double(d: Float64)
    | Str(s: string)
    | Arr(items: seq<Value>)
    | Obj(members: map<string, Value>)

  newtype int32 = n: int | -0x8000_0000 <= n < 0x8000_0000

  datatype Doc =
    | DNull
    | DBool(b: bool)
    | DInt(n: int32)
    | DStr(s: string)
    | DArr(items: seq<Doc>)
    | DObj(members: seq<Member>)

  datatype Member = Member(key: string, value: Doc)

  // The keys of a map are distinct, and a string is held as a C string.
  ghost predicate WellFormed(d: Doc) {
    match d
    case DStr(s) => '\0' !in s
    case DArr(items) => forall i :: 0 <= i < |items| ==> WellFormed(items[i])
    case DObj(members) =>
      && (forall i :: 0 <= i < |members| ==> WellFormed(members[i].value))
      && (forall i, j :: 0 <= i < j < |members| ==> members[i].key != members[j].key)
    case _ => true
  }

  function Denote(d: Doc): Value
    decreases d, 1
  {
    match d
    case DNull => Null
    case DBool(b) => Bool(b)
    case DInt(n) => Int(n as int)
    case DStr(s) => Str(s)
    case DArr(items) => Arr(DenoteItems(items))
    case DObj(members) => Obj(DenoteMembers(members, map[]))
  }

  function DenoteItems(items: seq<Doc>): (vs: seq<Value>)
    ensures |vs| == |items|
    decreases items, 0
  {
    if items == [] then [] else [Denote(items[0])] + DenoteItems(items[1..])
  }

  function DenoteMembers(members: seq<Member>, m: map<string, Value>): map<string, Value>
    decreases members, 0
  {
    if members == [] then m
    else DenoteMembers(members[1..], Emplace(m, members[0].key, Denote(members[0].value)))
  }

  // unordered_map::emplace: a key that is already there keeps its value.
  function Emplace(m: map<string, Value>, key: string, v: Value): map<string, Value> {
    if key in m then m else m[key := v]
  }
}
