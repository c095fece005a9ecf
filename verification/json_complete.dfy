/**
 The parser against the grammar, both ways: it reads every text of the grammar with the meaning
 the grammar gives it, and it reads nothing else.
 */
module JsonComplete {
  import opened JsonValue
  import opened JsonUnicode
  import opened JsonGrammar
  import opened JsonSyntax

  // What can stand after a value inside an array or an object.
  predicate Delim(s: string) { s == [] || IsBlank(s[0]) || s[0] == ',' || s[0] == ']' || s[0] == '}' }

  predicate NeedsDelim(t: Tree) { t.TNum? || t.TOther? || t.TTrue? }

  // The text left after t has been read in front of k.
  function Left(t: Tree, k: string): string {
    if t.TObj? && t.fields == [] then k else SkipBlanks(k)
  }

  lemma Assoc<T>(a: seq<T>, b: seq<T>, c: seq<T>)
    ensures (a + b) + c == a + (b + c)
  {
  }

  lemma {:induction false} SkipOver(b: string, k: string)
    requires Blank(b)
    ensures SkipBlanks(b + k) == SkipBlanks(k)
  {
    if b == [] {
      assert b + k == k;
    } else {
      assert (b + k)[1..] == b[1..] + k;
      SkipOver(b[1..], k);
    }
  }

  lemma SkipLeft(t: Tree, k: string)
    ensures SkipBlanks(Left(t, k)) == SkipBlanks(k)
  {
  }

  // The first character of a value is never a blank, and tells the cases apart.
  lemma FirstOf(t: Tree, k: string)
    requires Valid(t)
    ensures Write(t, k) != []
    ensures var c := Write(t, k)[0];
            match t
            case TNull => c == 'n'
            case TTrue => c == 't'
            case TFalse => c == 'f'
            case TTrueFalse => c == 't'
            case TNum(neg, _) => if neg then c == '-' else IsDigit(c)
            case TOther(_) => c == '-' || IsDigit(c)
            case TStr(_) => c == '\"'
            case TArr(_, _) => c == '['
            case TObj(_, _) => c == '{'
  {
  }

  lemma FirstNotBlank(t: Tree, k: string)
    requires Valid(t)
    ensures Write(t, k) != [] && !IsBlank(Write(t, k)[0]) && Write(t, k)[0] != ']'
  {
    FirstOf(t, k);
  }

  lemma {:induction false} CompleteDigits(ds: string, k: string)
    requires AllDigits(ds) && !IsDigit(Head(k))
    ensures Digits(ds + k) == ds
  {
    if ds == [] {
      assert ds + k == k;
    } else {
      assert (ds + k)[1..] == ds[1..] + k;
      CompleteDigits(ds[1..], k);
    }
  }

  lemma {:induction false} WholeWord(word: string, k: string)
    requires (forall i :: 0 <= i < |word| ==> NumberChar(word[i])) && Delim(k)
    ensures Word(word + k) == word
  {
    if word == [] {
      assert word + k == k && (k == [] || !NumberChar(k[0]));
    } else {
      assert (word + k)[1..] == word[1..] + k;
      WholeWord(word[1..], k);
    }
  }

  lemma PlainNumber(neg: bool, ds: string)
    requires Valid(TNum(neg, ds))
    ensures ValidNumber(Text(TNum(neg, ds)))
    ensures Strtod(Text(TNum(neg, ds))) == Reading(|Text(TNum(neg, ds))|, Finite(Signed(neg, DigitsValue(ds)) as real))
  {
    hide DigitsValue;
    var word := Text(TNum(neg, ds));
    assert ds + "" == ds && Head(word) == (if neg then '-' else ds[0]);
    assert Unsigned(word) == ds;
    CompleteDigits(ds, "");
    assert ds[|ds|..] == [];
  }

  lemma IntegerStays(n: int)
    requires IsInt32(n)
    ensures Converted(Finite(n as real)) == Int(n)
  {
    assert (n as real).Floor == n;
  }

  // A word that strtod reads as a whole, in front of what cannot be part of it.
  lemma ParseWord(word: string, k: string)
    requires ValidNumber(word) && Delim(k)
    ensures ParseNumber(word + k) == Ok(Converted(Strtod(word).value), SkipBlanks(k))
  {
    hide SkipBlanks, Strtod, Converted, Word;
    WholeWord(word, k);
    assert (word + k)[|word|..] == k;
  }

  lemma CompleteNumber(neg: bool, ds: string, k: string)
    requires Valid(TNum(neg, ds)) && Delim(k)
    ensures ParseNumber(Write(TNum(neg, ds), k)) == Ok(Meaning(TNum(neg, ds)), SkipBlanks(k))
  {
    hide DigitsValue, Digits, SkipBlanks, Strtod, Converted, ParseNumber, ValidNumber, Write;
    PlainNumber(neg, ds);
    IntegerStays(Signed(neg, DigitsValue(ds)));
    WriteAppends(TNum(neg, ds), k);
    ParseWord(Text(TNum(neg, ds)), k);
  }

  lemma NumberCase(s: string)
    requires Head(s) == '-' || IsDigit(Head(s))
    ensures ParseValue(s) == ParseNumber(s)
  {
    hide ParseNumber, ParseString, ParseArray, ParseObject, ParseBool, ParseNull;
  }

  lemma CompleteWord(t: Tree, k: string)
    requires (t.TNull? || t.TTrue? || t.TFalse? || t.TTrueFalse?) && (NeedsDelim(t) ==> Delim(k))
    ensures ParseValue(Write(t, k)) == Ok(Meaning(t), SkipBlanks(k))
  {
    var s := Write(t, k);
    match t
    case TNull => assert s[4..] == k;
    case TTrue => assert s[4..] == k;
    case TFalse => assert s[5..] == k;
    case TTrueFalse => assert s[4..] == "false" + k && s[4..][5..] == k;
  }

  lemma CompletePiece(p: Piece, k: string, cur: string)
    requires p.Valid()
    ensures ParseChars(p.Write(k), cur) == ParseChars(k, cur + p.Meaning())
  {
    hide Encode, Join;
    var s := p.Write(k);
    match p
    case Plain(_) =>
    case Simple(_) => assert s[1..][1..] == k;
    case Code(hex) => assert s[1..][1..] == hex + k;
    case Pair(high, low) =>
      var tail := "\\u" + (low + k);
      assert s[1..][1..] == high + tail;
      assert (high + tail)[..4] == high && (high + tail)[4..] == tail;
      assert tail[2..6] == low && tail[6..] == k;
  }

  lemma {:induction false} CompleteChars(ps: seq<Piece>, k: string, cur: string)
    requires ValidPieces(ps)
    ensures ParseChars(WritePieces(ps, "\"" + k), cur) == Ok(cur + PiecesMeaning(ps), SkipBlanks(k))
  {
    hide ParseEscape, Encode, Join, Hex4;
    if ps == [] {
      assert cur + PiecesMeaning(ps) == cur;
      assert ("\"" + k)[1..] == k;
    } else {
      var p, tail := ps[0], ps[1..];
      assert ValidPieces(tail);
      CompletePiece(p, WritePieces(tail, "\"" + k), cur);
      CompleteChars(tail, k, cur + p.Meaning());
      Assoc(cur, p.Meaning(), PiecesMeaning(tail));
    }
  }

  lemma {:induction false} CompleteRaw(key: string, k: string, cur: string)
    requires RawKey(key)
    ensures ParseRaw(key + ("\"" + k), cur) == Ok(cur + key, SkipBlanks(k))
  {
    var s := key + ("\"" + k);
    if key == [] {
      assert s == "\"" + k && s[1..] == k && cur + key == cur;
    } else {
      assert s[0] == key[0] && s[1..] == key[1..] + ("\"" + k);
      CompleteRaw(key[1..], k, cur + [key[0]]);
      assert cur + [key[0]] + key[1..] == cur + key;
    }
  }

  // Completeness: every value of the grammar is read, whatever blanks stand between its tokens,
  // and the text after it is left alone but for the blanks in front of it.
  lemma {:induction false} Complete(t: Tree, k: string)
    requires Valid(t) && (NeedsDelim(t) ==> Delim(k))
    ensures ParseValue(Write(t, k)) == Ok(Meaning(t), Left(t, k))
    decreases t, 1
  {
    match t
    case TNum(neg, ds) =>
      NumberCase(Write(t, k));
      CompleteNumber(neg, ds, k);
    case TOther(word) =>
      NumberCase(Write(t, k));
      ParseWord(word, k);
    case TStr(ps) => CompleteString(ps, k);
    case TArr(es, inside) =>
      if es != [] { CompleteElems(es, [], k); }
      CompleteArray(es, inside, k);
    case TObj(fs, inside) =>
      if fs != [] { CompleteFields(fs, map[], k); }
      CompleteObject(fs, inside, k);
    case _ => CompleteWord(t, k);
  }

  lemma CompleteString(ps: seq<Piece>, k: string)
    requires ValidPieces(ps)
    ensures ParseValue(Write(TStr(ps), k)) == Ok(Meaning(TStr(ps)), SkipBlanks(k))
  {
    assert Write(TStr(ps), k)[1..] == WritePieces(ps, "\"" + k);
    CompleteChars(ps, k, []);
    assert [] + PiecesMeaning(ps) == PiecesMeaning(ps);
  }

  lemma CompleteArray(es: seq<Elem>, inside: string, k: string)
    requires Valid(TArr(es, inside))
    requires es != [] ==>
               && ParseItems(SkipBlanks(WriteElems(es, k)), []) == Ok(Arr([] + ElemsMeaning(es)), SkipBlanks(k))
               && Head(SkipBlanks(WriteElems(es, k))) != ']'
    ensures ParseValue(Write(TArr(es, inside), k)) == Ok(Meaning(TArr(es, inside)), SkipBlanks(k))
  {
    hide ParseString, ParseNumber, ParseBool, ParseNull, ParseItems, ParseObject, ElemsMeaning, WriteElems, ValidElems;
    var s := Write(TArr(es, inside), k);
    if es == [] {
      assert s[1..] == inside + ("]" + k);
      SkipOver(inside, "]" + k);
      assert ("]" + k)[1..] == k;
    } else {
      assert s[1..] == WriteElems(es, k);
      assert [] + ElemsMeaning(es) == ElemsMeaning(es);
    }
  }

  lemma CompleteObject(fs: seq<Field>, inside: string, k: string)
    requires Valid(TObj(fs, inside))
    requires fs != [] ==>
               && ParseMembers(SkipBlanks(WriteFields(fs, k)), map[])
                  == Ok(Obj(FieldsMeaning(fs, map[])), SkipBlanks(k))
               && Head(SkipBlanks(WriteFields(fs, k))) != '}'
    ensures ParseValue(Write(TObj(fs, inside), k)) == Ok(Meaning(TObj(fs, inside)), Left(TObj(fs, inside), k))
  {
    hide ParseString, ParseNumber, ParseBool, ParseNull, ParseMembers, ParseArray, WriteFields, ValidFields;
    var s := Write(TObj(fs, inside), k);
    if fs == [] {
      assert s[1..] == inside + ("}" + k);
      SkipOver(inside, "}" + k);
      assert ("}" + k)[1..] == k;
    } else {
      assert s[1..] == WriteFields(fs, k);
    }
  }

  lemma {:induction false} CompleteElems(es: seq<Elem>, acc: seq<Value>, k: string)
    requires es != [] && ValidElems(es)
    ensures ParseItems(SkipBlanks(WriteElems(es, k)), acc)
         == Ok(Arr(acc + ElemsMeaning(es)), SkipBlanks(k))
    ensures Head(SkipBlanks(WriteElems(es, k))) != ']'
    decreases es, 0
  {
    hide ParseValue, ParseItems, Meaning, Valid, Write;
    var e := es[0];
    var next := if |es| == 1 then "]" + k else "," + WriteElems(es[1..], k);
    var s := Write(e.tree, e.after + next);
    assert WriteElems(es, k) == e.before + s;
    SkipOver(e.before, s);
    FirstNotBlank(e.tree, e.after + next);
    Complete(e.tree, e.after + next);
    SkipLeft(e.tree, e.after + next);
    SkipOver(e.after, next);
    var v := Meaning(e.tree);
    ItemsStep(WriteElems(es, k), acc, v, Left(e.tree, e.after + next));
    if |es| == 1 {
      assert next[1..] == k;
      assert ElemsMeaning(es) == [v];
    } else {
      assert next[1..] == WriteElems(es[1..], k);
      CompleteElems(es[1..], acc + [v], k);
      Assoc(acc, [v], ElemsMeaning(es[1..]));
    }
  }

  // One turn of the loop over the items of an array.
  lemma ItemsStep(s: string, acc: seq<Value>, v: Value, r: string)
    requires ParseValue(SkipBlanks(s)) == Ok(v, r)
    ensures ParseItems(SkipBlanks(s), acc) == ParseItems(s, acc)
    ensures Head(SkipBlanks(r)) == ','
            ==> ParseItems(s, acc) == ParseItems(SkipBlanks(SkipBlanks(r)[1..]), acc + [v])
    ensures Head(SkipBlanks(r)) == ']' ==> ParseItems(s, acc) == Ok(Arr(acc + [v]), SkipBlanks(SkipBlanks(r)[1..]))
    ensures Head(SkipBlanks(r)) != ',' && Head(SkipBlanks(r)) != ']'
            ==> ParseItems(s, acc) == Err(JSON_MISS_SQUARE)
  {
  }

  lemma {:induction false} CompleteField(f: Field, k: string)
    requires ValidField(f) && Delim(f.after + k)
    ensures ParseMember(WriteField(f, k)) == Ok((f.key, Meaning(f.tree)), Left(f.tree, f.after + k))
    decreases f, 2
  {
    hide ParseValue, ParseRaw, Meaning, Valid, Write;
    var value := Write(f.tree, f.after + k);
    var colon := f.afterKey + (":" + (f.afterColon + value));
    assert WriteField(f, k)[1..] == f.key + ("\"" + colon);
    CompleteRaw(f.key, colon, []);
    assert [] + f.key == f.key;
    SkipOver(f.afterKey, ":" + (f.afterColon + value));
    assert (":" + (f.afterColon + value))[1..] == f.afterColon + value;
    SkipOver(f.afterColon, value);
    FirstNotBlank(f.tree, f.after + k);
    Complete(f.tree, f.after + k);
  }

  lemma {:induction false} CompleteFields(fs: seq<Field>, m: map<string, Value>, k: string)
    requires fs != [] && ValidFields(fs)
    ensures ParseMembers(SkipBlanks(WriteFields(fs, k)), m)
         == Ok(Obj(FieldsMeaning(fs, m)), SkipBlanks(k))
    ensures Head(SkipBlanks(WriteFields(fs, k))) != '}'
    decreases fs, 0
  {
    hide ParseValue, ParseMember, Meaning, Valid, Write;
    var f := fs[0];
    assert ValidField(f);
    var next := if |fs| == 1 then "}" + k else "," + WriteFields(fs[1..], k);
    SkipOver(f.before, WriteField(f, next));
    CompleteField(f, next);
    SkipLeft(f.tree, f.after + next);
    SkipOver(f.after, next);
    assert SkipBlanks(next) == next;
    var m' := Emplace(m, f.key, Meaning(f.tree));
    if |fs| == 1 {
      assert next[1..] == k;
      assert FieldsMeaning(fs[1..], m') == m';
    } else {
      assert next[1..] == WriteFields(fs[1..], k);
      CompleteFields(fs[1..], m', k);
    }
  }
}
