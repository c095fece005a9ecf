/**
 The pretty printer.  `format` walks the text that `dump` gives and puts a newline and tabs behind
 every opening bracket and comma and in front of every closing bracket, without regard to strings.
 */
module JsonFormat {
  import opened JsonValue
  import opened JsonUnicode
  import opened JsonGrammar
  import opened JsonSyntax
  import opened JsonComplete
  import opened JsonPrinter
  import opened Wrappers

  function Tabs(level: int): string
    decreases level
  {
    if level <= 0 then "" else "\t" + Tabs(level - 1)
  }

  // As many tabs as the level says, and none below zero.
  lemma {:induction false} TabsAreLevel(level: int)
    ensures |Tabs(level)| == if level > 0 then level else 0
    ensures forall i :: 0 <= i < |Tabs(level)| ==> Tabs(level)[i] == '\t'
    decreases level
  {
    if level > 0 { TabsAreLevel(level - 1); }
  }

  predicate Opens(c: char) { c == '[' || c == '{' }

  predicate Closes(c: char) { c == ']' || c == '}' }

  function LevelAfter(c: char, level: int): int {
    if Opens(c) then level + 1 else if Closes(c) then level - 1 else level
  }

  // What is written in front of c.  The source also tests for a text that ends in a newline.
  function Before(c: char, last: char, level: int): string {
    (if level > 0 && last == '\n' then Tabs(level) else "")
    + (if Closes(c) then "\n" + Tabs(level - 1) else "")
  }

  function Behind(c: char, level: int): string {
    if Opens(c) then "\n" + Tabs(level + 1) else if c == ',' then "\n" + Tabs(level) else ""
  }

  function Piecewise(c: char, last: char, level: int): string {
    Before(c, last, level) + ([c] + Behind(c, level))
  }

  function FormatFrom(s: string, last: char, level: int): string {
    if s == [] then "" else Piecewise(s[0], last, level) + FormatFrom(s[1..], last, LevelAfter(s[0], level))
  }

  function FormatText(s: string): string {
    if s == [] then "" else FormatFrom(s, s[|s| - 1], 0)
  }

  method Format(members: seq<Member>) returns (text: Option<string>)
    ensures text == match DumpText(members) case Some(s) => Some(FormatText(s)) case None => None
  {
    hide Piecewise, LevelAfter, DumpText;
    var dumped := Dump(members);
    if dumped == None {
      return None;
    }
    var s := dumped.value;
    var result: string := [];
    var level := 0;
    for index := 0 to |s|
      invariant s != [] ==>
                  result + FormatFrom(s[index..], s[|s| - 1], level) == FormatFrom(s, s[|s| - 1], 0)
      invariant s == [] ==> result == []
    {
      var c := s[index];
      result := result + Piecewise(c, s[|s| - 1], level);
      level := LevelAfter(c, level);
      assert s[index..][1..] == s[index + 1..];
    }
    assert s[|s|..] == [] && result + "" == result;
    return Some(result);
  }

  // If the text ended in a newline, which no dumped text does, tabs would stand in front of every character.
  lemma NewLineAtEnd(c: char, level: int)
    ensures Before(c, '\n', level)
         == if c == ']' || c == '}' then Tabs(level) + ("\n" + Tabs(level - 1)) else Tabs(level)
  {
  }

  // What is left of a text without the characters that are marked.
  function Unmarked(s: string, marks: seq<bool>): string
    requires |s| == |marks|
  {
    if s == [] then [] else (if marks[0] then [] else [s[0]]) + Unmarked(s[1..], marks[1..])
  }

  lemma {:induction false} UnmarkedAppend(s: string, a: seq<bool>, t: string, b: seq<bool>)
    requires |s| == |a| && |t| == |b|
    ensures Unmarked(s + t, a + b) == Unmarked(s, a) + Unmarked(t, b)
  {
    if s == [] {
      assert s + t == t && a + b == b;
    } else {
      assert (s + t)[1..] == s[1..] + t && (a + b)[1..] == a[1..] + b;
      UnmarkedAppend(s[1..], a[1..], t, b);
    }
  }

  predicate BreakOnly(s: string) { forall i :: 0 <= i < |s| ==> s[i] == '\n' || s[i] == '\t' }

  function AllMarked(s: string): (marks: seq<bool>)
    ensures |marks| == |s| && forall i :: 0 <= i < |s| ==> marks[i]
  {
    if s == [] then [] else [true] + AllMarked(s[1..])
  }

  lemma {:induction false} AllMarkedIsNothing(s: string)
    ensures Unmarked(s, AllMarked(s)) == []
  {
    if s != [] { AllMarkedIsNothing(s[1..]); }
  }

  lemma {:induction false} TabsAreBreaks(level: int)
    ensures BreakOnly(Tabs(level)) && BreakOnly("\n" + Tabs(level))
    decreases level
  {
    if level > 0 { TabsAreBreaks(level - 1); }
  }

  lemma PieceInserts(c: char, last: char, level: int)
    ensures BreakOnly(Before(c, last, level)) && BreakOnly(Behind(c, level))
  {
    TabsAreBreaks(level - 1);
    TabsAreBreaks(level);
    TabsAreBreaks(level + 1);
  }

  // Whatever the text, deleting the characters that formatting has inserted, which are newlines and tabs,
  // gives the text back.
  lemma {:induction false} DeletingGivesBack(s: string, last: char, level: int) returns (marks: seq<bool>)
    ensures |marks| == |FormatFrom(s, last, level)| && Unmarked(FormatFrom(s, last, level), marks) == s
    ensures forall i :: 0 <= i < |marks| && marks[i] ==>
              FormatFrom(s, last, level)[i] == '\n' || FormatFrom(s, last, level)[i] == '\t'
    decreases |s|
  {
    hide Before, Behind, LevelAfter;
    marks := [];
    if s != [] {
      var rest := DeletingGivesBack(s[1..], last, LevelAfter(s[0], level));
      var before, behind := Before(s[0], last, level), Behind(s[0], level);
      PieceInserts(s[0], last, level);
      AllMarkedIsNothing(before);
      AllMarkedIsNothing(behind);
      UnmarkedAppend([s[0]], [false], behind, AllMarked(behind));
      UnmarkedAppend(before, AllMarked(before), [s[0]] + behind, [false] + AllMarked(behind));
      var piece := AllMarked(before) + ([false] + AllMarked(behind));
      UnmarkedAppend(Piecewise(s[0], last, level), piece, FormatFrom(s[1..], last, LevelAfter(s[0], level)), rest);
      marks := piece + rest;
      assert s == [s[0]] + s[1..];
    }
  }

  // The level at the end of s, unless it has gone below zero on the way.
  function Depth(s: string, level: nat): Option<nat> {
    if s == [] then Some(level)
    else if LevelAfter(s[0], level) < 0 then None
    else Depth(s[1..], LevelAfter(s[0], level))
  }

  predicate Mute(c: char) { !Opens(c) && !Closes(c) && c != ',' }

  predicate Quiet(s: string) { forall i :: 0 <= i < |s| ==> Mute(s[i]) }

  // No bracket and no comma inside a string or a key.
  predicate Calm(t: Tree)
    decreases t, 1
  {
    match t
    case TStr(ps) => CalmPieces(ps)
    case TArr(es, _) => CalmElems(es)
    case TObj(fs, _) => CalmFields(fs)
    case _ => true
  }

  predicate CalmPieces(ps: seq<Piece>) {
    forall i :: 0 <= i < |ps| && ps[i].Plain? ==> Mute(ps[i].c)
  }

  predicate CalmElems(es: seq<Elem>)
    decreases es, 0
  {
    es == [] || (Calm(es[0].tree) && CalmElems(es[1..]))
  }

  predicate CalmFields(fs: seq<Field>)
    decreases fs, 0
  {
    fs == [] || (Quiet(fs[0].key) && Calm(fs[0].tree) && CalmFields(fs[1..]))
  }

  function NewLine(level: nat): string { "\n" + Tabs(level) }

  // The tree of the formatted text.
  function Indent(t: Tree, level: nat): Tree
    decreases t, 1
  {
    match t
    case TArr(es, inside) => TArr(IndentElems(es, level), NewLine(level + 1) + (inside + NewLine(level)))
    case TObj(fs, inside) => TObj(IndentFields(fs, level), NewLine(level + 1) + (inside + NewLine(level)))
    case _ => t
  }

  function IndentElems(es: seq<Elem>, level: nat): (r: seq<Elem>)
    ensures |r| == |es|
    decreases es, 0
  {
    if es == [] then []
    else
      var e := es[0];
      [Elem(NewLine(level + 1) + e.before, Indent(e.tree, level + 1),
            if |es| == 1 then e.after + NewLine(level) else e.after)]
      + IndentElems(es[1..], level)
  }

  function IndentField(f: Field, level: nat, last: bool): Field
    decreases f, 2
  {
    f.(before := NewLine(level + 1) + f.before, tree := Indent(f.tree, level + 1),
       after := if last then f.after + NewLine(level) else f.after)
  }

  function IndentFields(fs: seq<Field>, level: nat): (r: seq<Field>)
    ensures |r| == |fs|
    decreases fs, 0
  {
    if fs == [] then [] else [IndentField(fs[0], level, |fs| == 1)] + IndentFields(fs[1..], level)
  }

  // One character in front of a text.
  lemma FormatOne(c: char, k: string, last: char, level: int)
    ensures FormatFrom([c] + k, last, level)
         == Piecewise(c, last, level) + FormatFrom(k, last, LevelAfter(c, level))
  {
    hide Piecewise, LevelAfter;
    assert ([c] + k)[1..] == k;
  }

  lemma DepthOne(c: char, k: string, level: nat)
    requires LevelAfter(c, level) >= 0
    ensures Depth([c] + k, level) == Depth(k, LevelAfter(c, level))
  {
    hide LevelAfter;
    assert ([c] + k)[1..] == k;
  }

  lemma MutePiece(c: char, last: char, level: int)
    requires Mute(c) && last != '\n'
    ensures Piecewise(c, last, level) == [c] && LevelAfter(c, level) == level
  {
  }

  // Text without brackets and commas is copied.
  lemma {:induction false} QuietOver(s: string, k: string, last: char, level: nat)
    requires Quiet(s) && last != '\n'
    ensures FormatFrom(s + k, last, level) == s + FormatFrom(k, last, level)
    ensures Depth(s + k, level) == Depth(k, level)
  {
    hide FormatFrom, Depth, Piecewise, LevelAfter, Mute;
    if s == [] {
      assert s + k == k;
    } else {
      assert s + k == [s[0]] + (s[1..] + k);
      FormatOne(s[0], s[1..] + k, last, level);
      MutePiece(s[0], last, level);
      DepthOne(s[0], s[1..] + k, level);
      QuietOver(s[1..], k, last, level);
      assert s == [s[0]] + s[1..];
    }
  }

  lemma OpenPiece(c: char, last: char, level: int)
    requires Opens(c) && last != '\n'
    ensures Piecewise(c, last, level) == [c] + ("\n" + Tabs(level + 1)) && LevelAfter(c, level) == level + 1
  {
    hide Tabs;
    assert Before(c, last, level) == "";
  }

  lemma ClosePiece(c: char, last: char, level: int)
    requires Closes(c) && last != '\n'
    ensures Piecewise(c, last, level) == ("\n" + Tabs(level - 1)) + [c] && LevelAfter(c, level) == level - 1
  {
    hide Tabs;
    assert Behind(c, level) == "";
    assert Before(c, last, level) == "\n" + Tabs(level - 1);
  }

  lemma CommaPiece(last: char, level: int)
    requires last != '\n'
    ensures Piecewise(',', last, level) == "," + ("\n" + Tabs(level)) && LevelAfter(',', level) == level
  {
    hide Tabs;
    assert Before(',', last, level) == "";
  }

  lemma FormatOpen(c: char, k: string, last: char, level: nat)
    requires Opens(c) && last != '\n'
    ensures FormatFrom([c] + k, last, level) == [c] + (NewLine(level + 1) + FormatFrom(k, last, level + 1))
    ensures Depth([c] + k, level) == Depth(k, level + 1)
  {
    hide FormatFrom, Depth, Piecewise, LevelAfter, Tabs;
    OpenPiece(c, last, level);
    FormatOne(c, k, last, level);
    DepthOne(c, k, level);
  }

  lemma FormatClose(c: char, k: string, last: char, level: nat)
    requires Closes(c) && last != '\n'
    ensures FormatFrom([c] + k, last, level + 1) == NewLine(level) + ([c] + FormatFrom(k, last, level))
    ensures Depth([c] + k, level + 1) == Depth(k, level)
  {
    hide FormatFrom, Depth, Piecewise, LevelAfter, Tabs;
    ClosePiece(c, last, level + 1);
    FormatOne(c, k, last, level + 1);
    DepthOne(c, k, level + 1);
  }

  lemma FormatComma(k: string, last: char, level: nat)
    requires last != '\n'
    ensures FormatFrom("," + k, last, level) == "," + (NewLine(level) + FormatFrom(k, last, level))
    ensures Depth("," + k, level) == Depth(k, level)
  {
    hide FormatFrom, Depth, Piecewise, LevelAfter, Tabs;
    CommaPiece(last, level);
    FormatOne(',', k, last, level);
    DepthOne(',', k, level);
  }

  lemma BlankIsQuiet(s: string)
    requires Blank(s) || AllDigits(s)
    ensures Quiet(s)
  {
  }

  // Formatting the text of a tree gives the text of the same tree with more blanks, and comes back
  // to the level it started from.
  lemma {:induction false} FormatTree(t: Tree, k: string, last: char, level: nat)
    requires Valid(t) && Calm(t) && last != '\n'
    ensures FormatFrom(Write(t, k), last, level) == Write(Indent(t, level), FormatFrom(k, last, level))
    ensures Depth(Write(t, k), level) == Depth(k, level)
    decreases t, 1
  {
    match t
    case TStr(ps) => FormatString(ps, k, last, level);
    case TArr(es, inside) =>
      if es != [] { FormatElems(es, k, last, level); }
      FormatArray(es, inside, k, last, level);
    case TObj(fs, inside) =>
      if fs != [] { FormatFields(fs, k, last, level); }
      FormatObject(fs, inside, k, last, level);
    case _ => FormatScalar(t, k, last, level);
  }

  lemma FormatScalar(t: Tree, k: string, last: char, level: nat)
    requires !t.TStr? && !t.TArr? && !t.TObj? && Valid(t) && last != '\n'
    ensures FormatFrom(Write(t, k), last, level) == Write(t, FormatFrom(k, last, level))
    ensures Depth(Write(t, k), level) == Depth(k, level)
  {
    hide FormatFrom, Depth, DigitsValue;
    match t
    case TNull => QuietOver("null", k, last, level);
    case TTrue => QuietOver("true", k, last, level);
    case TFalse => QuietOver("false", k, last, level);
    case TTrueFalse =>
      QuietOver("false", k, last, level);
      QuietOver("true", "false" + k, last, level);
    case TNum(neg, ds) =>
      BlankIsQuiet(ds);
      QuietOver(ds, k, last, level);
      QuietOver("-", ds + k, last, level);
    case TOther(word) => QuietOver(word, k, last, level);
  }

  lemma {:induction false} FormatPieces(ps: seq<Piece>, k: string, last: char, level: nat)
    requires ValidPieces(ps) && CalmPieces(ps) && last != '\n'
    ensures FormatFrom(WritePieces(ps, k), last, level) == WritePieces(ps, FormatFrom(k, last, level))
    ensures Depth(WritePieces(ps, k), level) == Depth(k, level)
  {
    hide FormatFrom, Depth, Hex4;
    if ps != [] {
      var k1 := WritePieces(ps[1..], k);
      FormatPieces(ps[1..], k, last, level);
      match ps[0]
      case Plain(c) => QuietOver([c], k1, last, level);
      case Simple(c) => QuietOver(['\\', c], k1, last, level);
      case Code(hex) =>
        QuietOver(hex, k1, last, level);
        QuietOver("\\u", hex + k1, last, level);
      case Pair(high, low) =>
        QuietOver(low, k1, last, level);
        QuietOver("\\u", low + k1, last, level);
        QuietOver(high, "\\u" + (low + k1), last, level);
        QuietOver("\\u", high + ("\\u" + (low + k1)), last, level);
    }
  }

  lemma FormatString(ps: seq<Piece>, k: string, last: char, level: nat)
    requires ValidPieces(ps) && CalmPieces(ps) && last != '\n'
    ensures FormatFrom(Write(TStr(ps), k), last, level) == Write(TStr(ps), FormatFrom(k, last, level))
    ensures Depth(Write(TStr(ps), k), level) == Depth(k, level)
  {
    hide FormatFrom, Depth;
    FormatPieces(ps, "\"" + k, last, level);
    QuietOver("\"", k, last, level);
    QuietOver("\"", WritePieces(ps, "\"" + k), last, level);
  }

  lemma FormatEmpty(open: char, close: char, inside: string, k: string, last: char, level: nat)
    requires Opens(open) && Closes(close) && Blank(inside) && last != '\n'
    ensures FormatFrom([open] + (inside + ([close] + k)), last, level)
         == [open] + ((NewLine(level + 1) + (inside + NewLine(level))) + ([close] + FormatFrom(k, last, level)))
    ensures Depth([open] + (inside + ([close] + k)), level) == Depth(k, level)
  {
    hide FormatFrom, Depth, NewLine;
    FormatOpen(open, inside + ([close] + k), last, level);
    BlankIsQuiet(inside);
    QuietOver(inside, [close] + k, last, level + 1);
    FormatClose(close, k, last, level);
    var end := [close] + FormatFrom(k, last, level);
    assert NewLine(level + 1) + (inside + (NewLine(level) + end))
        == (NewLine(level + 1) + (inside + NewLine(level))) + end;
  }

  lemma FormatArray(es: seq<Elem>, inside: string, k: string, last: char, level: nat)
    requires Blank(inside) && last != '\n'
    requires es != [] ==>
               && NewLine(level + 1) + FormatFrom(WriteElems(es, k), last, level + 1)
                  == WriteElems(IndentElems(es, level), FormatFrom(k, last, level))
               && Depth(WriteElems(es, k), level + 1) == Depth(k, level)
    ensures FormatFrom(Write(TArr(es, inside), k), last, level)
         == Write(Indent(TArr(es, inside), level), FormatFrom(k, last, level))
    ensures Depth(Write(TArr(es, inside), k), level) == Depth(k, level)
  {
    hide FormatFrom, Depth, NewLine, WriteElems, IndentElems;
    if es == [] {
      FormatEmpty('[', ']', inside, k, last, level);
    } else {
      FormatOpen('[', WriteElems(es, k), last, level);
    }
  }

  lemma FormatObject(fs: seq<Field>, inside: string, k: string, last: char, level: nat)
    requires Blank(inside) && last != '\n'
    requires fs != [] ==>
               && NewLine(level + 1) + FormatFrom(WriteFields(fs, k), last, level + 1)
                  == WriteFields(IndentFields(fs, level), FormatFrom(k, last, level))
               && Depth(WriteFields(fs, k), level + 1) == Depth(k, level)
    ensures FormatFrom(Write(TObj(fs, inside), k), last, level)
         == Write(Indent(TObj(fs, inside), level), FormatFrom(k, last, level))
    ensures Depth(Write(TObj(fs, inside), k), level) == Depth(k, level)
  {
    hide FormatFrom, Depth, NewLine, WriteFields, IndentFields;
    if fs == [] {
      FormatEmpty('{', '}', inside, k, last, level);
    } else {
      FormatOpen('{', WriteFields(fs, k), last, level);
    }
  }

  lemma {:induction false} FormatElems(es: seq<Elem>, k: string, last: char, level: nat)
    requires es != [] && ValidElems(es) && CalmElems(es) && last != '\n'
    ensures NewLine(level + 1) + FormatFrom(WriteElems(es, k), last, level + 1)
         == WriteElems(IndentElems(es, level), FormatFrom(k, last, level))
    ensures Depth(WriteElems(es, k), level + 1) == Depth(k, level)
    decreases es, 0
  {
    hide FormatFrom, Depth, NewLine, Valid, Calm, Write, Indent;
    var e, k' := es[0], FormatFrom(k, last, level);
    var next := if |es| == 1 then "]" + k else "," + WriteElems(es[1..], k);
    BlankIsQuiet(e.before);
    BlankIsQuiet(e.after);
    QuietOver(e.before, Write(e.tree, e.after + next), last, level + 1);
    FormatTree(e.tree, e.after + next, last, level + 1);
    QuietOver(e.after, next, last, level + 1);
    var r := IndentElems(es, level);
    assert r[1..] == IndentElems(es[1..], level);
    Assoc(NewLine(level + 1), e.before, Write(Indent(e.tree, level + 1), e.after + FormatFrom(next, last, level + 1)));
    if |es| == 1 {
      FormatClose(']', k, last, level);
      Assoc(e.after, NewLine(level), "]" + k');
    } else {
      FormatComma(WriteElems(es[1..], k), last, level + 1);
      FormatElems(es[1..], k, last, level);
    }
  }

  lemma {:induction false} FormatField(f: Field, k: string, last: char, level: nat)
    requires ValidField(f) && Quiet(f.key) && Calm(f.tree) && last != '\n'
    ensures FormatFrom(WriteField(f, k), last, level)
         == WriteField(f.(tree := Indent(f.tree, level)), FormatFrom(k, last, level))
    ensures Depth(WriteField(f, k), level) == Depth(k, level)
    decreases f, 2
  {
    hide FormatFrom, Depth, Valid, Calm, Write, Indent;
    BlankIsQuiet(f.afterKey);
    BlankIsQuiet(f.afterColon);
    BlankIsQuiet(f.after);
    QuietOver(f.after, k, last, level);
    FormatTree(f.tree, f.after + k, last, level);
    var s := Write(f.tree, f.after + k);
    QuietOver(f.afterColon, s, last, level);
    s := f.afterColon + s;
    QuietOver(":", s, last, level);
    s := ":" + s;
    QuietOver(f.afterKey, s, last, level);
    s := f.afterKey + s;
    QuietOver("\"", s, last, level);
    s := "\"" + s;
    QuietOver(f.key, s, last, level);
    QuietOver("\"", f.key + s, last, level);
  }

  lemma {:induction false} FormatFields(fs: seq<Field>, k: string, last: char, level: nat)
    requires fs != [] && ValidFields(fs) && CalmFields(fs) && last != '\n'
    ensures NewLine(level + 1) + FormatFrom(WriteFields(fs, k), last, level + 1)
         == WriteFields(IndentFields(fs, level), FormatFrom(k, last, level))
    ensures Depth(WriteFields(fs, k), level + 1) == Depth(k, level)
    decreases fs, 0
  {
    hide FormatFrom, Depth, NewLine, Valid, Calm, Write, Indent;
    var f, k' := fs[0], FormatFrom(k, last, level);
    var next := if |fs| == 1 then "}" + k else "," + WriteFields(fs[1..], k);
    BlankIsQuiet(f.before);
    QuietOver(f.before, WriteField(f, next), last, level + 1);
    FormatField(f, next, last, level + 1);
    var r := IndentFields(fs, level);
    assert r[1..] == IndentFields(fs[1..], level);
    var formatted := WriteField(f.(tree := Indent(f.tree, level + 1)), FormatFrom(next, last, level + 1));
    Assoc(NewLine(level + 1), f.before, formatted);
    if |fs| == 1 {
      FormatClose('}', k, last, level);
      Assoc(f.after, NewLine(level), "}" + k');
    } else {
      FormatComma(WriteFields(fs[1..], k), last, level + 1);
      FormatFields(fs[1..], k, last, level);
    }
  }

  // More blanks do not change the meaning.
  lemma {:induction false} IndentKeeps(t: Tree, level: nat)
    requires Valid(t)
    ensures Valid(Indent(t, level)) && Meaning(Indent(t, level)) == Meaning(t)
    decreases t, 1
  {
    NewLineIsBlank(level);
    NewLineIsBlank(level + 1);
    match t
    case TArr(es, _) => IndentElemsKeep(es, level);
    case TObj(fs, _) => IndentFieldsKeep(fs, level, map[]);
    case _ =>
  }

  lemma {:induction false} NewLineIsBlank(level: nat)
    ensures Blank(NewLine(level))
  {
    if level > 0 {
      NewLineIsBlank(level - 1);
      assert NewLine(level) == "\n\t" + NewLine(level - 1)[1..];
    }
  }

  lemma {:induction false} IndentElemsKeep(es: seq<Elem>, level: nat)
    requires ValidElems(es)
    ensures ValidElems(IndentElems(es, level)) && ElemsMeaning(IndentElems(es, level)) == ElemsMeaning(es)
    decreases es, 0
  {
    if es != [] {
      NewLineIsBlank(level);
      NewLineIsBlank(level + 1);
      IndentKeeps(es[0].tree, level + 1);
      IndentElemsKeep(es[1..], level);
      assert IndentElems(es, level)[1..] == IndentElems(es[1..], level);
    }
  }

  lemma {:induction false} IndentFieldsKeep(fs: seq<Field>, level: nat, m: map<string, Value>)
    requires ValidFields(fs)
    ensures ValidFields(IndentFields(fs, level))
    ensures FieldsMeaning(IndentFields(fs, level), m) == FieldsMeaning(fs, m)
    decreases fs, 0
  {
    if fs != [] {
      assert ValidField(fs[0]);
      NewLineIsBlank(level);
      NewLineIsBlank(level + 1);
      IndentKeeps(fs[0].tree, level + 1);
      IndentFieldsKeep(fs[1..], level, Emplace(m, fs[0].key, Meaning(fs[0].tree)));
      assert IndentFields(fs, level)[1..] == IndentFields(fs[1..], level);
    }
  }

  // Formatting any text of the grammar that is an object leaves it loading as the same object,
  // and the level never goes below zero and ends at zero.
  lemma FormatKeepsMeaning(t: Tree)
    requires Valid(t) && t.TObj? && Calm(t)
    ensures Load(FormatText(Text(t))) == Load(Text(t)) == Some(Meaning(t).members)
    ensures Depth(Text(t), 0) == Some(0)
  {
    var s := Text(t);
    EndsInBrace(t);
    FormatTree(t, "", '}', 0);
    IndentKeeps(t, 0);
    Complete(t, "");
    Complete(Indent(t, 0), "");
  }

  lemma EndsInBrace(t: Tree)
    requires t.TObj?
    ensures Text(t) != [] && Text(t)[|Text(t)| - 1] == '}'
  {
    if t.fields != [] {
      FieldsEndInBrace(t.fields);
    }
  }

  lemma {:induction false} FieldsEndInBrace(fs: seq<Field>)
    requires fs != []
    ensures var s := WriteFields(fs, ""); s != [] && s[|s| - 1] == '}'
  {
    if |fs| > 1 {
      FieldsEndInBrace(fs[1..]);
    }
    var next := if |fs| == 1 then "}" + "" else "," + WriteFields(fs[1..], "");
    FieldAppends(fs[0], next);
  }
}
