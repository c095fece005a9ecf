/**
 `dump` and `to_string`.  `dump` prints the top object and the objects directly inside it, each
 with its own spacing around the colon, and leaves everything deeper to `to_string`.  Neither
 escapes anything.
 */
module JsonPrinter {
  import opened JsonValue
  import opened JsonGrammar
  import opened Wrappers

  datatype Level = Top | Second | Deep

  function Colon(level: Level): string {
    if level == Second then " : " else ":"
  }

  function Below(level: Level): Level {
    if level == Top then Second else Deep
  }

  function NatText(n: nat): (ds: string)
    ensures ds != [] && forall i :: 0 <= i < |ds| ==> IsDigit(ds[i])
    ensures DigitsValue(ds) == n
  {
    var digit := ('0' as int + n % 10) as char;
    if n < 10 then [digit]
    else
      var ds := NatText(n / 10) + [digit];
      assert ds[..|ds| - 1] == NatText(n / 10);
      ds
  }

  function Magnitude(n: int32): nat { if n < 0 then -(n as int) else n as int }

  // The text of d followed by k, printed at the given level.
  function WriteDoc(d: Doc, level: Level, k: string): string
    decreases d, 1
  {
    match d
    case DNull => "null" + k
    case DBool(b) => if b then "true" + k else "false" + k
    case DInt(n) => if n < 0 then "-" + (NatText(Magnitude(n)) + k) else NatText(Magnitude(n)) + k
    case DStr(s) => "\"" + (s + ("\"" + k))
    case DArr(items) => "[" + WriteItems(items, k)
    case DObj(members) => "{" + WriteMembers(members, level, k)
  }

  function WriteItems(items: seq<Doc>, k: string): string
    decreases items, 0
  {
    if items == [] then "]" + k
    else WriteDoc(items[0], Deep, if |items| == 1 then "]" + k else "," + WriteItems(items[1..], k))
  }

  function WriteMembers(members: seq<Member>, level: Level, k: string): string
    decreases members, 0
  {
    if members == [] then "}" + k
    else
      WriteMember(members[0], level,
        if |members| == 1 then "}" + k else "," + WriteMembers(members[1..], level, k))
  }

  function WriteMember(m: Member, level: Level, k: string): string
    decreases m, 2
  {
    "\"" + (m.key + ("\"" + (Colon(level) + WriteDoc(m.value, Below(level), k))))
  }

  function DocText(d: Doc, level: Level): string { WriteDoc(d, level, "") }

  lemma {:induction false} DocAppends(d: Doc, level: Level, k: string)
    ensures WriteDoc(d, level, k) == DocText(d, level) + k
    decreases d, 1
  {
    match d
    case DArr(items) => ItemsAppend(items, k);
    case DObj(members) => MembersAppend(members, level, k);
    case _ =>
  }

  lemma {:induction false} ItemsAppend(items: seq<Doc>, k: string)
    ensures WriteItems(items, k) == WriteItems(items, "") + k
    decreases items, 0
  {
    if items != [] {
      var last := |items| == 1;
      if !last {
        ItemsAppend(items[1..], k);
      }
      DocAppends(items[0], Deep, if last then "]" + k else "," + WriteItems(items[1..], k));
      DocAppends(items[0], Deep, if last then "]" + "" else "," + WriteItems(items[1..], ""));
    }
  }

  lemma {:induction false} MembersAppend(members: seq<Member>, level: Level, k: string)
    ensures WriteMembers(members, level, k) == WriteMembers(members, level, "") + k
    decreases members, 0
  {
    hide WriteMember, WriteDoc;
    if |members| == 1 {
      MemberAppends(members[0], level, "}" + k);
      MemberAppends(members[0], level, "}" + "");
    } else if |members| > 1 {
      var rest := WriteMembers(members[1..], level, "");
      MembersAppend(members[1..], level, k);
      assert ("," + rest) + k == "," + WriteMembers(members[1..], level, k);
      MemberAppends(members[0], level, ("," + rest) + k);
      MemberAppends(members[0], level, "," + rest);
    }
  }

  lemma {:induction false} MemberAppends(m: Member, level: Level, k: string)
    ensures WriteMember(m, level, k) == WriteMember(m, level, "") + k
    decreases m, 2
  {
    DocAppends(m.value, Below(level), k);
  }

  // The text of items[i..] in terms of its first item: what one turn of a loop appends.
  lemma ItemsFrom(items: seq<Doc>, i: nat)
    requires i < |items|
    ensures WriteItems(items[i..], "")
         == DocText(items[i], Deep) + (if i == |items| - 1 then "]" else "," + WriteItems(items[i + 1..], ""))
  {
    var last := i == |items| - 1;
    assert items[i..][1..] == items[i + 1..];
    DocAppends(items[i], Deep, if last then "]" + "" else "," + WriteItems(items[i + 1..], ""));
  }

  lemma MembersFrom(members: seq<Member>, level: Level, i: nat, s: string, s': string)
    requires i < |members|
    requires s' == s + "\"" + members[i].key + "\"" + Colon(level) + DocText(members[i].value, Below(level))
                   + (if i < |members| - 1 then "," else "")
    ensures s + WriteMembers(members[i..], level, "") == s' + MembersLeft(members, level, i + 1)
  {
    var m := members[i];
    var tail := MembersLeft(members, level, i + 1);
    var next := if i == |members| - 1 then "}" + "" else "," + tail;
    assert members[i..][1..] == members[i + 1..];
    DocAppends(m.value, Below(level), next);
    var comma := if i < |members| - 1 then "," else "";
    assert next == comma + tail;
    Concat(s, m.key, Colon(level), DocText(m.value, Below(level)), comma, tail);
  }

  lemma Concat(s: string, key: string, colon: string, value: string, comma: string, tail: string)
    ensures s + ("\"" + (key + ("\"" + (colon + (value + (comma + tail))))))
         == (s + "\"" + key + "\"" + colon + value + comma) + tail
  {
    var a := s + "\"";
    var b := a + key;
    var c := b + "\"";
    var d := c + colon;
    var e := d + value;
    assert (e + comma) + tail == e + (comma + tail);
    assert e + (comma + tail) == d + (value + (comma + tail));
    assert d + (value + (comma + tail)) == c + (colon + (value + (comma + tail)));
    assert c + (colon + (value + (comma + tail))) == b + ("\"" + (colon + (value + (comma + tail))));
  }

  // What is left to print when the loop stands before member i.
  function MembersLeft(members: seq<Member>, level: Level, i: nat): string
    requires i <= |members|
  {
    if i == |members| then "}" else WriteMembers(members[i..], level, "")
  }

  method ToString(d: Doc) returns (s: string)
    ensures s == DocText(d, Deep)
    decreases d
  {
    match d
    case DNull => return "null";
    case DBool(b) => return if b then "true" else "false";
    case DInt(n) => return if n < 0 then "-" + NatText(Magnitude(n)) else NatText(Magnitude(n));
    case DStr(str) => return "\"" + str + "\"";
    case DArr(items) => s := ItemsToString(items);
    case DObj(members) => s := MembersToString(members, Deep);
  }

  method ItemsToString(items: seq<Doc>) returns (s: string)
    ensures s == DocText(DArr(items), Deep)
    decreases items
  {
    s := "[";
    if |items| > 0 {
      var i := 0;
      while i < |items| - 1
        invariant 0 <= i <= |items| - 1
        invariant s + WriteItems(items[i..], "") == "[" + WriteItems(items, "")
      {
        ItemsFrom(items, i);
        var item := ToString(items[i]);
        s := s + item;
        s := s + ",";
        i := i + 1;
      }
      ItemsFrom(items, i);
      var item := ToString(items[i]);
      s := s + item;
    }
    s := s + "]";
  }

  // The loop over the members of an object inside another value.
  method MembersToString(members: seq<Member>, level: Level) returns (s: string)
    requires level != Top // so that the values are printed by ToString
    ensures s == DocText(DObj(members), level)
    decreases members
  {
    s := "{";
    var size := |members|;
    for i := 0 to |members|
      invariant size == |members| - i
      invariant s + MembersLeft(members, level, i) == "{" + MembersLeft(members, level, 0)
    {
      ghost var before := s;
      s := s + "\"" + members[i].key + "\"" + Colon(level);
      var value := ToString(members[i].value);
      s := s + value;
      if size > 1 {
        s := s + ",";
      }
      size := size - 1;
      MembersFrom(members, level, i, before, s);
    }
    s := s + "}";
  }

  const SIZE_MAX: nat := 0xFFFF_FFFF_FFFF_FFFF

  predicate EmptyArray(d: Doc) { d.DArr? && d.items == [] }

  // `size - 1` is computed without a sign, so for an empty array the loop starts by reading the
  // element at index 0 of nothing: None.
  method DumpItems(items: seq<Doc>) returns (text: Option<string>)
    ensures text == if items == [] then None else Some(DocText(DArr(items), Second))
  {
    var s := "[";
    var last := if |items| == 0 then SIZE_MAX else |items| - 1;
    var i := 0;
    while i < last
      invariant 0 <= i <= last
      invariant items == [] ==> i == 0
      invariant items != [] ==> s + WriteItems(items[i..], "") == "[" + WriteItems(items, "")
    {
      if i >= |items| {
        return None;
      }
      ItemsFrom(items, i);
      var item := ToString(items[i]);
      s := s + item;
      s := s + ",";
      i := i + 1;
    }
    ItemsFrom(items, i);
    var item := ToString(items[i]);
    s := s + item;
    assert s + "]" == "[" + WriteItems(items, "");
    return Some(s + "]");
  }

  // The switch of `dump` over the type of a member of the top object.
  method DumpValue(d: Doc) returns (text: Option<string>)
    ensures text == if EmptyArray(d) then None else Some(DocText(d, Second))
  {
    match d
    case DArr(items) =>
      text := DumpItems(items);
    case DObj(members) =>
      var s := MembersToString(members, Second);
      text := Some(s);
    case _ =>
      var s := ToString(d);
      text := Some(s);
  }

  predicate DumpReadsPastEnd(members: seq<Member>) {
    exists i :: 0 <= i < |members| && EmptyArray(members[i].value)
  }

  function DumpText(members: seq<Member>): Option<string> {
    if DumpReadsPastEnd(members) then None else Some(DocText(DObj(members), Top))
  }

  method Dump(members: seq<Member>) returns (text: Option<string>)
    ensures text == DumpText(members)
  {
    if members == [] {
      assert DocText(DObj(members), Top) == "{}";
      return Some("{}");
    }
    var size := |members|;
    var s := "{";
    for i := 0 to |members|
      invariant size == |members| - i
      invariant forall j :: 0 <= j < i ==> !EmptyArray(members[j].value)
      invariant s + MembersLeft(members, Top, i) == "{" + MembersLeft(members, Top, 0)
    {
      ghost var before := s;
      s := s + "\"" + members[i].key + "\"" + ":";
      var value := DumpValue(members[i].value);
      if value == None {
        return None;
      }
      s := s + value.value;
      if size > 1 {
        s := s + ",";
      }
      size := size - 1;
      MembersFrom(members, Top, i, before, s);
    }
    return Some(s + "}");
  }
}
