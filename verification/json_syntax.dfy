/**
 The grammar of sections 2 to 7 of RFC 8259, as a datatype of parse trees that record every
 character, with the text and the meaning of each tree.  It is wider than the RFC where the
 parser is: leading zeros, any number strtod reads, control characters and unpaired low surrogates in strings, any
 character but a quote in a key, and the word "truefalse".
 */
module JsonSyntax {
  import opened JsonValue
  import opened JsonUnicode
  import opened JsonGrammar

  datatype Piece =
    | Plain(c: char)
    | Simple(c: char)                    // a backslash and c
    | Code(hex: string)                  // \uXXXX
    | Pair(high: string, low: string)    // \uXXXX\uXXXX
  {
    predicate Valid() {
      match this
      case Plain(c) => c != '\"' && c != '\\' && c != '\0'
      case Simple(c) => IsSimpleEscape(c)
      case Code(hex) => IsHex4(hex) && !IsHigh(Hex4(hex))
      case Pair(high, low) => IsHex4(high) && IsHex4(low) && IsHigh(Hex4(high)) && IsLow(Hex4(low))
    }

    function Write(k: string): string {
      match this
      case Plain(c) => [c] + k
      case Simple(c) => ['\\', c] + k
      case Code(hex) => "\\u" + (hex + k)
      case Pair(high, low) => "\\u" + (high + ("\\u" + (low + k)))
    }

    function Meaning(): string
      requires Valid()
    {
      match this
      case Plain(c) => [c]
      case Simple(c) => [Unescape(c)]
      case Code(hex) => Encode(Hex4(hex))
      case Pair(high, low) => Encode(Join(Hex4(high), Hex4(low)))
    }
  }

  datatype Tree =
    | TNull
    | TTrue
    | TFalse
    | TTrueFalse // read as false
    | TNum(neg: bool, digits: string)
    | TOther(word: string) // any other number
    | TStr(pieces: seq<Piece>)
    | TArr(elems: seq<Elem>, inside: string)
    | TObj(fields: seq<Field>, inside: string)

  datatype Elem = Elem(before: string, tree: Tree, after: string)

  datatype Field =
    Field(before: string, key: string, afterKey: string, afterColon: string, tree: Tree, after: string)

  predicate Blank(s: string) { forall i :: 0 <= i < |s| ==> IsBlank(s[i]) }

  predicate AllDigits(s: string) { forall i :: 0 <= i < |s| ==> IsDigit(s[i]) }

  predicate RawKey(key: string) { forall i :: 0 <= i < |key| ==> key[i] != '\"' && key[i] != '\0' }

  predicate ValidPieces(ps: seq<Piece>) { forall i :: 0 <= i < |ps| ==> ps[i].Valid() }

  // A word that strtod reads as a whole.
  predicate ValidNumber(word: string) {
    && word != [] && (word[0] == '-' || IsDigit(word[0]))
    && (forall i :: 0 <= i < |word| ==> NumberChar(word[i]))
    && Strtod(word).length == |word|
  }

  predicate Valid(t: Tree)
    decreases t, 1
  {
    match t
    case TNum(neg, ds) => ds != [] && AllDigits(ds) && IsInt32(Signed(neg, DigitsValue(ds)))
    case TOther(word) => ValidNumber(word)
    case TStr(ps) => ValidPieces(ps)
    case TArr(es, inside) => ValidElems(es) && Blank(inside)
    case TObj(fs, inside) => ValidFields(fs) && Blank(inside)
    case _ => true
  }

  predicate ValidElems(es: seq<Elem>)
    decreases es, 0
  {
    es == [] || (Blank(es[0].before) && Valid(es[0].tree) && Blank(es[0].after) && ValidElems(es[1..]))
  }

  predicate ValidField(f: Field)
    decreases f, 2
  {
    && RawKey(f.key) && Valid(f.tree)
    && Blank(f.before) && Blank(f.afterKey) && Blank(f.afterColon) && Blank(f.after)
  }

  predicate ValidFields(fs: seq<Field>)
    decreases fs, 0
  {
    fs == [] || (ValidField(fs[0]) && ValidFields(fs[1..]))
  }

  // The text of t followed by k.
  function Write(t: Tree, k: string): string
    decreases t, 1
  {
    match t
    case TNull => "null" + k
    case TTrue => "true" + k
    case TFalse => "false" + k
    case TTrueFalse => "true" + ("false" + k)
    case TNum(neg, ds) => if neg then "-" + (ds + k) else ds + k
    case TOther(word) => word + k
    case TStr(ps) => "\"" + WritePieces(ps, "\"" + k)
    case TArr(es, inside) => "[" + if es == [] then inside + ("]" + k) else WriteElems(es, k)
    case TObj(fs, inside) => "{" + if fs == [] then inside + ("}" + k) else WriteFields(fs, k)
  }

  function WritePieces(ps: seq<Piece>, k: string): string {
    if ps == [] then k else ps[0].Write(WritePieces(ps[1..], k))
  }

  function WriteElems(es: seq<Elem>, k: string): string
    requires es != []
    decreases es, 0
  {
    es[0].before + Write(es[0].tree, es[0].after +
      if |es| == 1 then "]" + k else "," + WriteElems(es[1..], k))
  }

  function WriteFields(fs: seq<Field>, k: string): string
    requires fs != []
    decreases fs, 0
  {
    fs[0].before + WriteField(fs[0], if |fs| == 1 then "}" + k else "," + WriteFields(fs[1..], k))
  }

  // From the opening quote of the key to the blanks after the value.
  function WriteField(f: Field, k: string): string
    decreases f, 2
  {
    "\"" + (f.key + ("\"" + (f.afterKey + (":" + (f.afterColon + Write(f.tree, f.after + k))))))
  }

  function Text(t: Tree): string { Write(t, "") }

  function Meaning(t: Tree): Value
    requires Valid(t)
    decreases t, 1
  {
    match t
    case TNull => Null
    case TTrue => Bool(true)
    case TFalse => Bool(false)
    case TTrueFalse => Bool(false)
    case TNum(neg, ds) => Int(Signed(neg, DigitsValue(ds)))
    case TOther(word) => Converted(Strtod(word).value)
    case TStr(ps) => Str(CString(PiecesMeaning(ps)))
    case TArr(es, _) => Arr(ElemsMeaning(es))
    case TObj(fs, _) => Obj(FieldsMeaning(fs, map[]))
  }

  function PiecesMeaning(ps: seq<Piece>): string
    requires ValidPieces(ps)
  {
    if ps == [] then [] else ps[0].Meaning() + PiecesMeaning(ps[1..])
  }

  function ElemsMeaning(es: seq<Elem>): (vs: seq<Value>)
    requires ValidElems(es)
    ensures |vs| == |es|
    decreases es, 0
  {
    if es == [] then [] else [Meaning(es[0].tree)] + ElemsMeaning(es[1..])
  }

  // The first of several fields with one key wins.
  function FieldsMeaning(fs: seq<Field>, m: map<string, Value>): map<string, Value>
    requires ValidFields(fs)
    decreases fs, 0
  {
    if fs == [] then m
    else assert ValidField(fs[0]); FieldsMeaning(fs[1..], Emplace(m, fs[0].key, Meaning(fs[0].tree)))
  }

  lemma {:induction false} WriteAppends(t: Tree, k: string)
    ensures Write(t, k) == Text(t) + k
    decreases t, 1
  {
    match t
    case TStr(ps) =>
      PiecesAppend(ps, "\"" + k);
      PiecesAppend(ps, "\"");
      assert "\"" + "" == "\"" && WritePieces(ps, "") + ("\"" + k) == WritePieces(ps, "\"") + k;
    case TArr(es, _) => if es != [] { ElemsAppend(es, k); }
    case TObj(fs, _) => if fs != [] { FieldsAppend(fs, k); }
    case _ =>
  }

  lemma {:induction false} PiecesAppend(ps: seq<Piece>, k: string)
    ensures WritePieces(ps, k) == WritePieces(ps, "") + k
  {
    if ps != [] {
      PiecesAppend(ps[1..], k);
    }
  }

  lemma {:induction false} ElemsAppend(es: seq<Elem>, k: string)
    requires es != []
    ensures WriteElems(es, k) == WriteElems(es, "") + k
    decreases es, 0
  {
    var last := |es| == 1;
    if !last {
      ElemsAppend(es[1..], k);
    }
    var next := es[0].after + if last then "]" + "" else "," + WriteElems(es[1..], "");
    assert next + k == es[0].after + if last then "]" + k else "," + WriteElems(es[1..], k);
    WriteAppends(es[0].tree, next + k);
    WriteAppends(es[0].tree, next);
  }

  lemma {:induction false} FieldsAppend(fs: seq<Field>, k: string)
    requires fs != []
    ensures WriteFields(fs, k) == WriteFields(fs, "") + k
    decreases fs, 0
  {
    var last := |fs| == 1;
    if !last {
      FieldsAppend(fs[1..], k);
    }
    var next := if last then "}" + "" else "," + WriteFields(fs[1..], "");
    assert next + k == if last then "}" + k else "," + WriteFields(fs[1..], k);
    FieldAppends(fs[0], next + k);
    FieldAppends(fs[0], next);
  }

  lemma {:induction false} FieldAppends(f: Field, k: string)
    ensures WriteField(f, k) == WriteField(f, "") + k
    decreases f, 2
  {
    WriteAppends(f.tree, f.after + k);
    WriteAppends(f.tree, f.after + "");
  }
}
