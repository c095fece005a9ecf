/**
 Printing a document and loading it again: this gives the document back exactly when none of its
 strings holds a quote or a backslash, none of its keys holds a quote or a NUL, and `dump` does
 not run into an empty array directly inside the top object.
 */
module JsonRoundTrip {
  import opened JsonValue
  import opened JsonGrammar
  import opened JsonSyntax
  import opened JsonComplete
  import opened JsonPrinter
  import opened Wrappers

  predicate Plainly(s: string) { '\"' !in s && '\\' !in s }

  predicate Safe(d: Doc) {
    match d
    case DStr(s) => Plainly(s)
    case DArr(items) => forall i :: 0 <= i < |items| ==> Safe(items[i])
    case DObj(members) => forall i :: 0 <= i < |members| ==> RawKey(members[i].key) && Safe(members[i].value)
    case _ => true
  }

  // The parse tree of the printed text of a safe document.
  function TreeOf(d: Doc, level: Level): Tree
    decreases d, 1
  {
    match d
    case DNull => TNull
    case DBool(b) => if b then TTrue else TFalse
    case DInt(n) => TNum(n < 0, NatText(Magnitude(n)))
    case DStr(s) => TStr(PiecesOf(s))
    case DArr(items) => TArr(ElemsOf(items), "")
    case DObj(members) => TObj(FieldsOf(members, level), "")
  }

  function PiecesOf(s: string): (ps: seq<Piece>)
    ensures |ps| == |s|
  {
    if s == [] then [] else [Plain(s[0])] + PiecesOf(s[1..])
  }

  function ElemsOf(items: seq<Doc>): (es: seq<Elem>)
    ensures |es| == |items|
    decreases items, 0
  {
    if items == [] then [] else [Elem("", TreeOf(items[0], Deep), "")] + ElemsOf(items[1..])
  }

  function FieldOf(m: Member, level: Level): Field
    decreases m, 2
  {
    var space := if level == Second then " " else "";
    Field("", m.key, space, space, TreeOf(m.value, if level == Top then Second else Deep), "")
  }

  function FieldsOf(members: seq<Member>, level: Level): (fs: seq<Field>)
    ensures |fs| == |members|
    decreases members, 0
  {
    if members == [] then [] else [FieldOf(members[0], level)] + FieldsOf(members[1..], level)
  }

  lemma {:induction false} StringTree(s: string, k: string)
    requires Plainly(s) && '\0' !in s
    ensures ValidPieces(PiecesOf(s)) && WritePieces(PiecesOf(s), k) == s + k
    ensures PiecesMeaning(PiecesOf(s)) == s
  {
    if s == [] {
      assert s + k == k;
    } else {
      StringTree(s[1..], k);
      assert s == [s[0]] + s[1..];
      assert PiecesOf(s)[1..] == PiecesOf(s[1..]);
    }
  }

  // Both printers write texts of the grammar, and what they write means the document.
  lemma {:induction false} PrintedTree(d: Doc, level: Level, k: string)
    requires WellFormed(d) && Safe(d)
    ensures Valid(TreeOf(d, level)) && Meaning(TreeOf(d, level)) == Denote(d)
    ensures Write(TreeOf(d, level), k) == WriteDoc(d, level, k)
    decreases d, 1
  {
    hide WriteDoc, Write, TreeOf, Meaning, Valid, Denote;
    match d
    case DArr(items) =>
      PrintedItems(items, k);
      PrintedArray(items, level, k);
    case DObj(members) =>
      PrintedMembers(members, level, map[], k);
      PrintedObject(members, level, k);
    case _ => PrintedScalar(d, level, k);
  }

  lemma PrintedScalar(d: Doc, level: Level, k: string)
    requires !d.DArr? && !d.DObj? && WellFormed(d) && Safe(d)
    ensures Valid(TreeOf(d, level)) && Meaning(TreeOf(d, level)) == Denote(d)
    ensures Write(TreeOf(d, level), k) == WriteDoc(d, level, k)
  {
    hide NatText, DigitsValue;
    if d.DStr? {
      StringTree(d.s, "\"" + k);
    }
  }

  lemma PrintedArray(items: seq<Doc>, level: Level, k: string)
    requires items != [] ==> WriteElems(ElemsOf(items), k) == WriteItems(items, k)
    requires ValidElems(ElemsOf(items)) && ElemsMeaning(ElemsOf(items)) == DenoteItems(items)
    ensures Valid(TreeOf(DArr(items), level)) && Meaning(TreeOf(DArr(items), level)) == Denote(DArr(items))
    ensures Write(TreeOf(DArr(items), level), k) == WriteDoc(DArr(items), level, k)
  {
    hide ElemsOf, WriteElems, ValidElems, ElemsMeaning, DenoteItems;
    assert items == [] ==> "" + ("]" + k) == WriteItems(items, k);
  }

  lemma PrintedObject(members: seq<Member>, level: Level, k: string)
    requires members != [] ==> WriteFields(FieldsOf(members, level), k) == WriteMembers(members, level, k)
    requires ValidFields(FieldsOf(members, level))
    requires FieldsMeaning(FieldsOf(members, level), map[]) == DenoteMembers(members, map[])
    ensures Valid(TreeOf(DObj(members), level))
    ensures Meaning(TreeOf(DObj(members), level)) == Denote(DObj(members))
    ensures Write(TreeOf(DObj(members), level), k) == WriteDoc(DObj(members), level, k)
  {
    hide FieldsOf, WriteFields, ValidFields, FieldsMeaning, DenoteMembers;
    assert members == [] ==> "" + ("}" + k) == WriteMembers(members, level, k);
  }

  lemma {:induction false} PrintedItems(items: seq<Doc>, k: string)
    requires forall i :: 0 <= i < |items| ==> WellFormed(items[i]) && Safe(items[i])
    ensures ValidElems(ElemsOf(items)) && ElemsMeaning(ElemsOf(items)) == DenoteItems(items)
    ensures items != [] ==> WriteElems(ElemsOf(items), k) == WriteItems(items, k)
    decreases items, 0
  {
    if items != [] {
      var next := if |items| == 1 then "]" + k else "," + WriteItems(items[1..], k);
      PrintedItems(items[1..], k);
      PrintedTree(items[0], Deep, next);
      assert ElemsOf(items)[1..] == ElemsOf(items[1..]);
      assert "" + next == next;
    }
  }

  lemma {:induction false} PrintedMember(m: Member, level: Level, k: string)
    requires WellFormed(m.value) && Safe(m.value) && RawKey(m.key)
    ensures ValidField(FieldOf(m, level)) && Meaning(FieldOf(m, level).tree) == Denote(m.value)
    ensures WriteField(FieldOf(m, level), k) == WriteMember(m, level, k)
    decreases m, 2
  {
    PrintedTree(m.value, Below(level), k);
    var value := WriteDoc(m.value, Below(level), k);
    assert "" + k == k;
    if level == Second {
      assert " " + (":" + (" " + value)) == Colon(level) + value;
    } else {
      assert "" + (":" + ("" + value)) == Colon(level) + value;
    }
  }

  lemma {:induction false} PrintedMembers(members: seq<Member>, level: Level, m: map<string, Value>, k: string)
    requires forall i :: 0 <= i < |members| ==>
               WellFormed(members[i].value) && Safe(members[i].value) && RawKey(members[i].key)
    ensures ValidFields(FieldsOf(members, level))
    ensures FieldsMeaning(FieldsOf(members, level), m) == DenoteMembers(members, m)
    ensures members != [] ==> WriteFields(FieldsOf(members, level), k) == WriteMembers(members, level, k)
    decreases members, 0
  {
    if members != [] {
      var next := if |members| == 1 then "}" + k else "," + WriteMembers(members[1..], level, k);
      PrintedMembers(members[1..], level, Emplace(m, members[0].key, Denote(members[0].value)), k);
      PrintedMember(members[0], level, next);
      assert FieldsOf(members, level)[1..] == FieldsOf(members[1..], level);
    }
  }

  lemma RoundTrip(members: seq<Member>)
    requires WellFormed(DObj(members)) && Safe(DObj(members))
    ensures Load(DocText(DObj(members), Top)) == Some(DenoteMembers(members, map[]))
  {
    PrintedTree(DObj(members), Top, "");
    Complete(TreeOf(DObj(members), Top), "");
  }
}
