/**
 When pretty printing is harmless.  `format` does not know about strings: it breaks lines behind the
 commas and brackets inside them as well, and counts those brackets.  A document that can be dumped and
 loaded again survives pretty printing exactly when none of its strings and keys holds a bracket or a comma.
 */
module JsonPretty {
  import opened JsonValue
  import opened JsonGrammar
  import opened JsonSyntax
  import opened JsonComplete
  import opened JsonPrinter
  import opened JsonRoundTrip
  import opened JsonFormat
  import opened Wrappers

  predicate QuietDoc(d: Doc) {
    match d
    case DStr(s) => Quiet(s)
    case DArr(items) => forall i :: 0 <= i < |items| ==> QuietDoc(items[i])
    case DObj(members) =>
      forall i :: 0 <= i < |members| ==> Quiet(members[i].key) && QuietDoc(members[i].value)
    case _ => true
  }

  // A line break at a level that may have gone below zero.
  function Break(level: int): string { "\n" + Tabs(level) }

  function LevelOf(s: string, level: int): int {
    if s == [] then level else LevelOf(s[1..], LevelAfter(s[0], level))
  }

  // What becomes of the inside of a string.
  function Stretched(s: string, level: int): string { FormatFrom(s, '}', level) }

  // The level behind a document.
  function After(d: Doc, level: int): int
    decreases d, 1
  {
    match d
    case DStr(s) => LevelOf(s, level)
    case DArr(items) => AfterItems(items, level + 1) - 1
    case DObj(members) => AfterMembers(members, level + 1) - 1
    case _ => level
  }

  function AfterItems(items: seq<Doc>, level: int): int
    decreases items, 0
  {
    if items == [] then level else AfterItems(items[1..], After(items[0], level))
  }

  function AfterMembers(members: seq<Member>, level: int): int
    decreases members, 0
  {
    if members == [] then level
    else AfterMembers(members[1..], After(members[0].value, LevelOf(members[0].key, level)))
  }

  // The parse tree of the formatted text of a safe document.
  function PrettyTree(d: Doc, lv: Level, level: int): Tree
    decreases d, 1
  {
    match d
    case DStr(s) => TStr(PiecesOf(Stretched(s, level)))
    case DArr(items) =>
      TArr(PrettyElems(items, level + 1), if items == [] then Break(level + 1) + Break(level) else "")
    case DObj(members) =>
      TObj(PrettyFields(members, lv, level + 1), if members == [] then Break(level + 1) + Break(level) else "")
    case _ => TreeOf(d, lv)
  }

  function PrettyElems(items: seq<Doc>, level: int): (es: seq<Elem>)
    ensures |es| == |items|
    decreases items, 0
  {
    if items == [] then []
    else
      var next := After(items[0], level);
      [Elem(Break(level), PrettyTree(items[0], Deep, level), if |items| == 1 then Break(next - 1) else "")]
      + PrettyElems(items[1..], next)
  }

  function PrettyField(m: Member, lv: Level, level: int, last: bool): Field
    decreases m, 2
  {
    var inside := LevelOf(m.key, level);
    var space := if lv == Second then " " else "";
    Field(Break(level), Stretched(m.key, level), space, space, PrettyTree(m.value, Below(lv), inside),
          if last then Break(After(m.value, inside) - 1) else "")
  }

  function PrettyFields(members: seq<Member>, lv: Level, level: int): (fs: seq<Field>)
    ensures |fs| == |members|
    decreases members, 0
  {
    if members == [] then []
    else
      [PrettyField(members[0], lv, level, |members| == 1)]
      + PrettyFields(members[1..], lv, After(members[0].value, LevelOf(members[0].key, level)))
  }

  lemma {:induction false} StretchOver(s: string, k: string, level: int)
    ensures FormatFrom(s + k, '}', level) == Stretched(s, level) + FormatFrom(k, '}', LevelOf(s, level))
  {
    hide Piecewise;
    if s == [] {
      assert s + k == k;
    } else {
      assert (s + k)[1..] == s[1..] + k;
      StretchOver(s[1..], k, LevelAfter(s[0], level));
    }
  }

  // Text without brackets and commas is copied.
  lemma {:induction false} CopyOver(s: string, k: string, level: int)
    requires Quiet(s)
    ensures FormatFrom(s + k, '}', level) == s + FormatFrom(k, '}', level)
  {
    hide Piecewise, LevelAfter, Mute;
    if s == [] {
      assert s + k == k;
    } else {
      assert (s + k)[1..] == s[1..] + k;
      CopyOver(s[1..], k, level);
      MutePiece(s[0], '}', level);
      assert s == [s[0]] + s[1..];
    }
  }

  lemma OpenBreak(c: char, k: string, level: int)
    requires Opens(c)
    ensures FormatFrom([c] + k, '}', level) == [c] + (Break(level + 1) + FormatFrom(k, '}', level + 1))
  {
    hide FormatFrom, Piecewise, LevelAfter, Tabs;
    OpenPiece(c, '}', level);
    FormatOne(c, k, '}', level);
  }

  lemma CloseBreak(c: char, k: string, level: int)
    requires Closes(c)
    ensures FormatFrom([c] + k, '}', level) == Break(level - 1) + ([c] + FormatFrom(k, '}', level - 1))
  {
    hide FormatFrom, Piecewise, LevelAfter, Tabs;
    ClosePiece(c, '}', level);
    FormatOne(c, k, '}', level);
  }

  lemma CommaBreak(k: string, level: int)
    ensures FormatFrom("," + k, '}', level) == "," + (Break(level) + FormatFrom(k, '}', level))
  {
    hide FormatFrom, Piecewise, LevelAfter, Tabs;
    CommaPiece('}', level);
    FormatOne(',', k, '}', level);
  }

  lemma Join3(a: string, b: string, c: string)
    ensures a + (b + c) == (a + b) + c
  {
  }

  lemma StretchedPlain(s: string, level: int)
    requires Plainly(s) && '\0' !in s
    ensures Plainly(Stretched(s, level)) && '\0' !in Stretched(s, level)
    decreases |s|
  {
    if s != [] {
      StretchedPlain(s[1..], LevelAfter(s[0], level));
      PiecePlain(s[0], level);
    }
  }

  lemma PiecePlain(c: char, level: int)
    requires c != '\"' && c != '\0'
    ensures forall x :: x in Piecewise(c, '}', level) ==> x == c || x == '\n' || x == '\t'
  {
    TabsOnly(level);
    TabsOnly(level + 1);
    TabsOnly(level - 1);
  }

  lemma {:induction false} TabsOnly(level: int)
    ensures forall x :: x in Tabs(level) ==> x == '\t'
    decreases level
  {
    if level > 0 { TabsOnly(level - 1); }
  }

  lemma {:induction false} StretchedRaw(s: string, level: int)
    requires RawKey(s)
    ensures RawKey(Stretched(s, level))
    decreases |s|
  {
    if s != [] {
      var piece, rest := Piecewise(s[0], '}', level), Stretched(s[1..], LevelAfter(s[0], level));
      StretchedRaw(s[1..], LevelAfter(s[0], level));
      PiecePlain(s[0], level);
      forall i | 0 <= i < |piece| ensures piece[i] != '\"' && piece[i] != '\0' { assert piece[i] in piece; }
      assert Stretched(s, level) == piece + rest;
    }
  }

  // Formatting the text of a document gives the text of its pretty tree.
  lemma {:induction false} PrettyText(d: Doc, lv: Level, k: string, level: int)
    requires WellFormed(d) && Safe(d)
    ensures FormatFrom(WriteDoc(d, lv, k), '}', level)
         == Write(PrettyTree(d, lv, level), FormatFrom(k, '}', After(d, level)))
    decreases d, 1
  {
    hide FormatFrom, WriteDoc, Write, PrettyTree, After;
    match d
    case DStr(s) => PrettyString(s, lv, k, level);
    case DArr(items) =>
      if items != [] { PrettyItems(items, k, level + 1); }
      PrettyArray(items, lv, k, level);
    case DObj(members) =>
      if members != [] { PrettyMembers(members, lv, k, level + 1); }
      PrettyObject(members, lv, k, level);
    case _ => PrettyScalar(d, lv, k, level);
  }

  lemma PrettyArray(items: seq<Doc>, lv: Level, k: string, level: int)
    requires items == [] ||
             Break(level + 1) + FormatFrom(WriteItems(items, k), '}', level + 1)
             == WriteElems(PrettyElems(items, level + 1), FormatFrom(k, '}', AfterItems(items, level + 1) - 1))
    ensures FormatFrom(WriteDoc(DArr(items), lv, k), '}', level)
         == Write(PrettyTree(DArr(items), lv, level), FormatFrom(k, '}', After(DArr(items), level)))
  {
    hide FormatFrom, Break, WriteElems, PrettyElems;
    OpenBreak('[', WriteItems(items, k), level);
    if items == [] {
      CloseBreak(']', k, level + 1);
      Join3(Break(level + 1), Break(level), "]" + FormatFrom(k, '}', level));
    }
  }

  lemma PrettyObject(members: seq<Member>, lv: Level, k: string, level: int)
    requires members == [] ||
             Break(level + 1) + FormatFrom(WriteMembers(members, lv, k), '}', level + 1)
             == WriteFields(PrettyFields(members, lv, level + 1),
                            FormatFrom(k, '}', AfterMembers(members, level + 1) - 1))
    ensures FormatFrom(WriteDoc(DObj(members), lv, k), '}', level)
         == Write(PrettyTree(DObj(members), lv, level), FormatFrom(k, '}', After(DObj(members), level)))
  {
    hide FormatFrom, Break, WriteFields, PrettyFields;
    OpenBreak('{', WriteMembers(members, lv, k), level);
    if members == [] {
      CloseBreak('}', k, level + 1);
      Join3(Break(level + 1), Break(level), "}" + FormatFrom(k, '}', level));
    }
  }

  lemma PrettyScalar(d: Doc, lv: Level, k: string, level: int)
    requires !d.DStr? && !d.DArr? && !d.DObj?
    ensures FormatFrom(WriteDoc(d, lv, k), '}', level)
         == Write(PrettyTree(d, lv, level), FormatFrom(k, '}', After(d, level)))
  {
    hide FormatFrom, NatText;
    match d
    case DNull => CopyOver("null", k, level);
    case DBool(b) => CopyOver(if b then "true" else "false", k, level);
    case DInt(n) =>
      var ds := NatText(Magnitude(n));
      CopyOver(ds, k, level);
      CopyOver("-", ds + k, level);
  }

  lemma PrettyString(s: string, lv: Level, k: string, level: int)
    requires Plainly(s) && '\0' !in s
    ensures FormatFrom(WriteDoc(DStr(s), lv, k), '}', level)
         == Write(PrettyTree(DStr(s), lv, level), FormatFrom(k, '}', After(DStr(s), level)))
  {
    hide FormatFrom;
    CopyOver("\"", s + ("\"" + k), level);
    StretchOver(s, "\"" + k, level);
    CopyOver("\"", k, LevelOf(s, level));
    StretchedPlain(s, level);
    StringTree(Stretched(s, level), "\"" + FormatFrom(k, '}', LevelOf(s, level)));
  }

  lemma {:induction false} PrettyItems(items: seq<Doc>, k: string, level: int)
    requires items != [] && forall i :: 0 <= i < |items| ==> WellFormed(items[i]) && Safe(items[i])
    ensures Break(level) + FormatFrom(WriteItems(items, k), '}', level)
         == WriteElems(PrettyElems(items, level), FormatFrom(k, '}', AfterItems(items, level) - 1))
    decreases items, 0
  {
    hide FormatFrom, Break, WriteDoc, Write, PrettyTree;
    var next := if |items| == 1 then "]" + k else "," + WriteItems(items[1..], k);
    var after := After(items[0], level);
    PrettyText(items[0], Deep, next, level);
    var es := PrettyElems(items, level);
    assert es[1..] == PrettyElems(items[1..], after);
    if |items| == 1 {
      CloseBreak(']', k, after);
    } else {
      CommaBreak(WriteItems(items[1..], k), after);
      PrettyItems(items[1..], k, after);
      var rest := "," + WriteElems(es[1..], FormatFrom(k, '}', AfterItems(items, level) - 1));
      assert "" + rest == rest;
    }
  }

  lemma {:induction false} PrettyMember(m: Member, lv: Level, k: string, level: int, last: bool)
    requires WellFormed(m.value) && Safe(m.value) && RawKey(m.key)
    ensures var inside := LevelOf(m.key, level);
            FormatFrom(WriteMember(m, lv, k), '}', level) ==
            WriteField(PrettyField(m, lv, level, last).(after := ""), FormatFrom(k, '}', After(m.value, inside)))
    decreases m, 2
  {
    hide FormatFrom, WriteDoc, Write, PrettyTree;
    var inside := LevelOf(m.key, level);
    var value := WriteDoc(m.value, Below(lv), k);
    PrettyText(m.value, Below(lv), k, inside);
    CopyOver("\"", m.key + ("\"" + (Colon(lv) + value)), level);
    StretchOver(m.key, "\"" + (Colon(lv) + value), level);
    CopyOver("\"", Colon(lv) + value, inside);
    CopyOver(Colon(lv), value, inside);
    var end := FormatFrom(k, '}', After(m.value, inside));
    var text := FormatFrom(value, '}', inside);
    assert "" + end == end;
    if lv == Second {
      assert " " + (":" + (" " + text)) == Colon(lv) + text;
    } else {
      assert "" + (":" + ("" + text)) == Colon(lv) + text;
    }
  }

  lemma {:induction false} PrettyMembers(members: seq<Member>, lv: Level, k: string, level: int)
    requires members != []
    requires forall i :: 0 <= i < |members| ==>
               WellFormed(members[i].value) && Safe(members[i].value) && RawKey(members[i].key)
    ensures Break(level) + FormatFrom(WriteMembers(members, lv, k), '}', level)
         == WriteFields(PrettyFields(members, lv, level), FormatFrom(k, '}', AfterMembers(members, level) - 1))
    decreases members, 0
  {
    hide FormatFrom, Break, WriteDoc, Write, PrettyTree;
    var next := if |members| == 1 then "}" + k else "," + WriteMembers(members[1..], lv, k);
    var after := After(members[0].value, LevelOf(members[0].key, level));
    PrettyMember(members[0], lv, next, level, |members| == 1);
    var fs := PrettyFields(members, lv, level);
    assert fs[1..] == PrettyFields(members[1..], lv, after);
    if |members| == 1 {
      CloseBreak('}', k, after);
      var end := Break(after - 1) + ("}" + FormatFrom(k, '}', after - 1));
      assert "" + end == end;
    } else {
      CommaBreak(WriteMembers(members[1..], lv, k), after);
      PrettyMembers(members[1..], lv, k, after);
    }
  }

  lemma {:induction false} PrettyIsValid(d: Doc, lv: Level, level: int)
    requires WellFormed(d) && Safe(d)
    ensures Valid(PrettyTree(d, lv, level))
    decreases d, 1
  {
    match d
    case DStr(s) =>
      StretchedPlain(s, level);
      StringTree(Stretched(s, level), "");
    case DArr(items) =>
      BreakIsBlank(level + 1);
      BreakIsBlank(level);
      ElemsAreValid(items, level + 1);
    case DObj(members) =>
      BreakIsBlank(level + 1);
      BreakIsBlank(level);
      FieldsAreValid(members, lv, level + 1);
    case _ => PrintedTree(d, lv, "");
  }

  lemma {:induction false} BreakIsBlank(level: int)
    ensures Blank(Break(level))
    decreases level
  {
    if level > 0 {
      BreakIsBlank(level - 1);
      assert Break(level) == "\n\t" + Break(level - 1)[1..];
    }
  }

  lemma {:induction false} ElemsAreValid(items: seq<Doc>, level: int)
    requires forall i :: 0 <= i < |items| ==> WellFormed(items[i]) && Safe(items[i])
    ensures ValidElems(PrettyElems(items, level))
    decreases items, 0
  {
    hide PrettyTree, Valid;
    if items != [] {
      var next := After(items[0], level);
      BreakIsBlank(level);
      BreakIsBlank(next - 1);
      PrettyIsValid(items[0], Deep, level);
      ElemsAreValid(items[1..], next);
      assert PrettyElems(items, level)[1..] == PrettyElems(items[1..], next);
    }
  }

  lemma {:induction false} FieldIsValid(m: Member, lv: Level, level: int, last: bool)
    requires WellFormed(m.value) && Safe(m.value) && RawKey(m.key)
    ensures ValidField(PrettyField(m, lv, level, last))
    decreases m, 2
  {
    hide PrettyTree, Valid, FormatFrom, RawKey, After;
    var inside := LevelOf(m.key, level);
    BreakIsBlank(level);
    BreakIsBlank(After(m.value, inside) - 1);
    StretchedRaw(m.key, level);
    PrettyIsValid(m.value, Below(lv), inside);
  }

  lemma {:induction false} FieldsAreValid(members: seq<Member>, lv: Level, level: int)
    requires forall i :: 0 <= i < |members| ==>
               WellFormed(members[i].value) && Safe(members[i].value) && RawKey(members[i].key)
    ensures ValidFields(PrettyFields(members, lv, level))
    decreases members, 0
  {
    hide PrettyField, ValidField, LevelOf, After, RawKey;
    if members != [] {
      var next := After(members[0].value, LevelOf(members[0].key, level));
      FieldIsValid(members[0], lv, level, |members| == 1);
      FieldsAreValid(members[1..], lv, next);
      assert PrettyFields(members, lv, level)[1..] == PrettyFields(members[1..], lv, next);
    }
  }

  // A string is left as it is exactly when it is quiet; otherwise it gets longer, and stays unquiet.
  lemma {:induction false} StretchedLonger(s: string, level: int)
    ensures Quiet(s) ==> Stretched(s, level) == s
    ensures !Quiet(s) ==> |Stretched(s, level)| > |s| && !Quiet(Stretched(s, level))
    ensures |Stretched(s, level)| >= |s|
  {
    if s != [] {
      var piece, rest := Piecewise(s[0], '}', level), Stretched(s[1..], LevelAfter(s[0], level));
      StretchedLonger(s[1..], LevelAfter(s[0], level));
      assert s == [s[0]] + s[1..];
      assert Stretched(s, level) == piece + rest;
      var at := if Closes(s[0]) then |Break(level - 1)| else 0;
      assert piece[at] == s[0] && (piece + rest)[at] == s[0];
      if !Quiet(rest) {
        var i :| 0 <= i < |rest| && !Mute(rest[i]);
        assert (piece + rest)[|piece| + i] == rest[i];
      }
    }
  }

  lemma {:induction false} FieldAt(members: seq<Member>, lv: Level, level: int, i: nat) returns (l: int)
    requires i < |members|
    ensures PrettyFields(members, lv, level)[i].key == Stretched(members[i].key, l)
    ensures PrettyFields(members, lv, level)[i].tree
         == PrettyTree(members[i].value, Below(lv), LevelOf(members[i].key, l))
    decreases |members|
  {
    hide PrettyTree, FormatFrom;
    if i == 0 {
      l := level;
    } else {
      l := FieldAt(members[1..], lv, After(members[0].value, LevelOf(members[0].key, level)), i - 1);
    }
  }

  // A key is in what a list of fields means, or of members, exactly when one of them has it.
  lemma {:induction false} FieldKeys(fs: seq<Field>, m: map<string, Value>, key: string)
    requires ValidFields(fs)
    ensures key in FieldsMeaning(fs, m) <==> key in m || exists i :: 0 <= i < |fs| && fs[i].key == key
    decreases |fs|
  {
    hide Valid, Meaning;
    if fs != [] {
      assert ValidField(fs[0]);
      FieldKeys(fs[1..], Emplace(m, fs[0].key, Meaning(fs[0].tree)), key);
      assert fs == [fs[0]] + fs[1..];
    }
  }

  lemma {:induction false} MemberKeys(members: seq<Member>, m: map<string, Value>, key: string)
    ensures key in DenoteMembers(members, m) <==> key in m || exists i :: 0 <= i < |members| && members[i].key == key
    decreases |members|
  {
    hide Denote;
    if members != [] {
      MemberKeys(members[1..], Emplace(m, members[0].key, Denote(members[0].value)), key);
      assert members == [members[0]] + members[1..];
    }
  }

  // Of some marked fields, one with a longest key.
  lemma {:induction false} LongestKey(fs: seq<Field>, marked: set<nat>) returns (i: nat)
    requires marked != {} && forall j :: j in marked ==> j < |fs|
    ensures i in marked && forall j :: j in marked ==> |fs[j].key| <= |fs[i].key|
    decreases |marked|
  {
    i :| i in marked;
    if marked != {i} {
      var rest := marked - {i};
      var k := LongestKey(fs, rest);
      assert forall j :: j in marked ==> j == i || j in rest;
      if |fs[k].key| > |fs[i].key| { i := k; }
    }
  }

  // With a bracket or a comma in a key, the keys are no longer the same.
  lemma UnquietKeys(members: seq<Member>, lv: Level, level: int)
    requires forall i :: 0 <= i < |members| ==>
               WellFormed(members[i].value) && Safe(members[i].value) && RawKey(members[i].key)
    requires exists i :: 0 <= i < |members| && !Quiet(members[i].key)
    ensures ValidFields(PrettyFields(members, lv, level))
    ensures FieldsMeaning(PrettyFields(members, lv, level), map[]) != DenoteMembers(members, map[])
  {
    hide Quiet, FormatFrom, PrettyTree, ValidFields, FieldsMeaning, DenoteMembers, PrettyFields;
    FieldsAreValid(members, lv, level);
    var fs := PrettyFields(members, lv, level);
    var marked := set i: nat | i < |members| && !Quiet(members[i].key);
    var w :| 0 <= w < |members| && !Quiet(members[w].key);
    assert w in marked;
    var i := LongestKey(fs, marked);
    var l := FieldAt(members, lv, level, i);
    StretchedLonger(members[i].key, l);
    var key := fs[i].key;
    FieldKeys(fs, map[], key);
    MemberKeys(members, map[], key);
    forall j: nat | j < |members| ensures members[j].key != key {
      var n := FieldAt(members, lv, level, j);
      StretchedLonger(members[j].key, n);
      assert j in marked <==> !Quiet(members[j].key);
    }
  }

  lemma {:induction false} FieldValue(fs: seq<Field>, m: map<string, Value>, i: nat)
    requires ValidFields(fs) && i < |fs| && fs[i].key !in m
    requires forall j, k :: 0 <= j < k < |fs| ==> fs[j].key != fs[k].key
    ensures Valid(fs[i].tree) && fs[i].key in FieldsMeaning(fs, m)
    ensures FieldsMeaning(fs, m)[fs[i].key] == Meaning(fs[i].tree)
    decreases |fs|
  {
    hide Valid, Meaning;
    assert ValidField(fs[0]);
    var m' := Emplace(m, fs[0].key, Meaning(fs[0].tree));
    if i == 0 {
      FieldsKeep(fs[1..], m', fs[0].key);
    } else {
      FieldValue(fs[1..], m', i - 1);
    }
  }

  lemma {:induction false} FieldsKeep(fs: seq<Field>, m: map<string, Value>, key: string)
    requires ValidFields(fs) && key in m
    ensures key in FieldsMeaning(fs, m) && FieldsMeaning(fs, m)[key] == m[key]
    decreases |fs|
  {
    hide Valid, Meaning;
    if fs != [] {
      assert ValidField(fs[0]);
      FieldsKeep(fs[1..], Emplace(m, fs[0].key, Meaning(fs[0].tree)), key);
    }
  }

  lemma {:induction false} MemberValue(members: seq<Member>, m: map<string, Value>, i: nat)
    requires i < |members| && members[i].key !in m
    requires forall j, k :: 0 <= j < k < |members| ==> members[j].key != members[k].key
    ensures members[i].key in DenoteMembers(members, m)
    ensures DenoteMembers(members, m)[members[i].key] == Denote(members[i].value)
    decreases |members|
  {
    hide Denote;
    var m' := Emplace(m, members[0].key, Denote(members[0].value));
    if i == 0 {
      MembersKeep(members[1..], m', members[0].key);
    } else {
      MemberValue(members[1..], m', i - 1);
    }
  }

  lemma {:induction false} MembersKeep(members: seq<Member>, m: map<string, Value>, key: string)
    requires key in m
    ensures key in DenoteMembers(members, m) && DenoteMembers(members, m)[key] == m[key]
    decreases |members|
  {
    hide Denote;
    if members != [] {
      MembersKeep(members[1..], Emplace(m, members[0].key, Denote(members[0].value)), key);
    }
  }

  // The pretty text means the document exactly when the document is quiet.
  lemma {:induction false} PrettyMeaning(d: Doc, lv: Level, level: int)
    requires WellFormed(d) && Safe(d)
    ensures Valid(PrettyTree(d, lv, level))
    ensures Meaning(PrettyTree(d, lv, level)) == Denote(d) <==> QuietDoc(d)
    decreases d, 1
  {
    PrettyIsValid(d, lv, level);
    match d
    case DStr(s) =>
      StretchedPlain(s, level);
      StretchedLonger(s, level);
      StringTree(Stretched(s, level), "");
    case DArr(items) => ItemsMeaning(items, level + 1);
    case DObj(members) => MembersMeaning(members, lv, level + 1);
    case _ => PrintedTree(d, lv, "");
  }

  lemma {:induction false} ItemsMeaning(items: seq<Doc>, level: int)
    requires forall i :: 0 <= i < |items| ==> WellFormed(items[i]) && Safe(items[i])
    ensures ValidElems(PrettyElems(items, level))
    ensures ElemsMeaning(PrettyElems(items, level)) == DenoteItems(items)
       <==> forall i :: 0 <= i < |items| ==> QuietDoc(items[i])
    decreases items, 0
  {
    hide PrettyTree, Valid, Meaning, Denote, QuietDoc;
    ElemsAreValid(items, level);
    if items != [] {
      var next := After(items[0], level);
      PrettyMeaning(items[0], Deep, level);
      ItemsMeaning(items[1..], next);
      assert PrettyElems(items, level)[1..] == PrettyElems(items[1..], next);
      var vs, ws := ElemsMeaning(PrettyElems(items, level)), DenoteItems(items);
      assert vs[1..] == ElemsMeaning(PrettyElems(items[1..], next)) && ws[1..] == DenoteItems(items[1..]);
      assert vs == ws <==> vs[0] == ws[0] && vs[1..] == ws[1..] by {
        assert vs == [vs[0]] + vs[1..] && ws == [ws[0]] + ws[1..];
      }
      assert items == [items[0]] + items[1..];
    }
  }

  lemma {:induction false} MembersMeaning(members: seq<Member>, lv: Level, level: int)
    requires WellFormed(DObj(members)) && Safe(DObj(members))
    ensures ValidFields(PrettyFields(members, lv, level))
    ensures FieldsMeaning(PrettyFields(members, lv, level), map[]) == DenoteMembers(members, map[])
       <==> forall i :: 0 <= i < |members| ==> Quiet(members[i].key) && QuietDoc(members[i].value)
    decreases members, 1
  {
    hide Quiet, QuietDoc, PrettyTree, Valid, Meaning, Denote, FormatFrom;
    FieldsAreValid(members, lv, level);
    if exists i :: 0 <= i < |members| && !Quiet(members[i].key) {
      UnquietKeys(members, lv, level);
    } else if i :| 0 <= i < |members| && !QuietDoc(members[i].value) {
      UnquietValue(members, lv, level, i);
    } else {
      QuietMembers(members, lv, level, map[]);
    }
  }

  lemma {:induction false} UnquietValue(members: seq<Member>, lv: Level, level: int, i: nat)
    requires WellFormed(DObj(members)) && Safe(DObj(members))
    requires forall j :: 0 <= j < |members| ==> Quiet(members[j].key)
    requires i < |members| && !QuietDoc(members[i].value)
    ensures ValidFields(PrettyFields(members, lv, level))
    ensures FieldsMeaning(PrettyFields(members, lv, level), map[]) != DenoteMembers(members, map[])
    decreases members, 0
  {
    hide Quiet, QuietDoc, PrettyTree, PrettyFields, Valid, Meaning, Denote, FormatFrom;
    FieldsAreValid(members, lv, level);
    var fs := PrettyFields(members, lv, level);
    forall j | 0 <= j < |members| ensures fs[j].key == members[j].key {
      var n := FieldAt(members, lv, level, j);
      StretchedLonger(members[j].key, n);
    }
    var l := FieldAt(members, lv, level, i);
    FieldValue(fs, map[], i);
    MemberValue(members, map[], i);
    PrettyMeaning(members[i].value, Below(lv), LevelOf(members[i].key, l));
  }

  lemma {:induction false} QuietMembers(members: seq<Member>, lv: Level, level: int, m: map<string, Value>)
    requires forall i :: 0 <= i < |members| ==>
               WellFormed(members[i].value) && Safe(members[i].value) && RawKey(members[i].key)
    requires forall i :: 0 <= i < |members| ==> Quiet(members[i].key) && QuietDoc(members[i].value)
    ensures ValidFields(PrettyFields(members, lv, level))
    ensures FieldsMeaning(PrettyFields(members, lv, level), m) == DenoteMembers(members, m)
    decreases members, 0
  {
    hide Quiet, QuietDoc, PrettyTree, Valid, Meaning, Denote, FormatFrom;
    FieldsAreValid(members, lv, level);
    if members != [] {
      var inside := LevelOf(members[0].key, level);
      var next := After(members[0].value, inside);
      StretchedLonger(members[0].key, level);
      PrettyMeaning(members[0].value, Below(lv), inside);
      QuietMembers(members[1..], lv, next, Emplace(m, members[0].key, Denote(members[0].value)));
      assert PrettyFields(members, lv, level)[1..] == PrettyFields(members[1..], lv, next);
    }
  }

  // A document that survives `dump` and `load` survives `format` and `load` exactly when none of its strings
  // and keys holds a bracket or a comma.  Either way, what `format` writes can be loaded.
  lemma PrettyIff(members: seq<Member>)
    requires WellFormed(DObj(members)) && Safe(DObj(members)) && !DumpReadsPastEnd(members)
    ensures var s := DumpText(members).value;
            && Load(FormatText(s)).Some? && Load(s) == Some(DenoteMembers(members, map[]))
            && (Load(FormatText(s)) == Load(s) <==> QuietDoc(DObj(members)))
  {
    hide WriteDoc, FormatText, Load, Meaning, Valid, Denote, Text, PrettyTree, QuietDoc, Safe, WellFormed;
    var d := DObj(members);
    RoundTrip(members);
    FormattedText(members);
    PrettyMeaning(d, Top, 0);
    PrettyLoads(members);
    ObjectsMeanObjects(members, PrettyTree(d, Top, 0));
  }

  lemma FormattedText(members: seq<Member>)
    requires WellFormed(DObj(members)) && Safe(DObj(members))
    ensures PrettyTree(DObj(members), Top, 0).TObj?
    ensures FormatText(DocText(DObj(members), Top)) == Text(PrettyTree(DObj(members), Top, 0))
  {
    hide WriteDoc, FormatFrom, Write;
    PrettyText(DObj(members), Top, "", 0);
    LastIsBrace(members);
    FormatNothing(After(DObj(members), 0));
  }

  lemma PrettyLoads(members: seq<Member>)
    requires Valid(PrettyTree(DObj(members), Top, 0))
    ensures Meaning(PrettyTree(DObj(members), Top, 0)).Obj?
    ensures Load(Text(PrettyTree(DObj(members), Top, 0))) == Some(Meaning(PrettyTree(DObj(members), Top, 0)).members)
  {
    hide ParseValue, Write, Valid, PrettyFields;
    Complete(PrettyTree(DObj(members), Top, 0), "");
  }

  lemma ObjectsMeanObjects(members: seq<Member>, t: Tree)
    requires t.TObj? && Valid(t)
    ensures Meaning(t).Obj? && Denote(DObj(members)) == Obj(DenoteMembers(members, map[]))
  {
  }

  lemma FormatNothing(level: int)
    ensures FormatFrom("", '}', level) == ""
  {
  }

  lemma LastIsBrace(members: seq<Member>)
    requires WellFormed(DObj(members)) && Safe(DObj(members))
    ensures var s := DocText(DObj(members), Top); s != [] && s[|s| - 1] == '}'
  {
    PrintedTree(DObj(members), Top, "");
    EndsInBrace(TreeOf(DObj(members), Top));
  }
}
