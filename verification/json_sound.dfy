/**
 Soundness of the parser: whatever it accepts is a text of the grammar.  Each lemma returns the
 parse tree of what was read and the blanks skipped after it.
 */
module JsonSound {
  import opened JsonValue
  import opened JsonUnicode
  import opened JsonGrammar
  import opened JsonSyntax
  import opened JsonComplete
  import opened Wrappers

  lemma {:induction false} SplitBlanks(s: string) returns (b: string)
    ensures Blank(b) && s == b + SkipBlanks(s)
  {
    if s != [] && IsBlank(s[0]) {
      b := SplitBlanks(s[1..]);
      b := [s[0]] + b;
    } else {
      b := [];
    }
  }

  lemma SplitHex(s: string)
    requires |s| >= 4
    ensures s == s[..4] + s[4..]
  {
  }

  lemma SoundEscape(s: string, k: string) returns (p: Piece)
    requires ParseEscape(s).Ok? && ParseEscape(s).rest == k
    ensures p.Valid() && ['\\'] + s == p.Write(k) && p.Meaning() == ParseEscape(s).value
  {
    hide Encode, Join;
    if s[0] == 'u' {
      var h := s[1..][..4];
      SplitHex(s[1..]);
      if IsHigh(Hex4(h)) {
        var t := s[1..][4..];
        SplitHex(t[2..]);
        p := Pair(h, t[2..6]);
        assert t == "\\u" + t[2..] && t[2..][..4] == t[2..6] && t[2..][4..] == t[6..];
      } else {
        p := Code(h);
      }
    } else {
      p := Simple(s[0]);
    }
  }

  lemma {:induction false} SoundChars(s: string, cur: string, v: string, rest: string)
    returns (ps: seq<Piece>, b: string)
    requires ParseChars(s, cur) == Ok(v, rest)
    ensures ValidPieces(ps) && Blank(b) && s == WritePieces(ps, "\"" + (b + rest))
    ensures v == cur + PiecesMeaning(ps)
    decreases |s|
  {
    hide ParseEscape, Encode, Join, Hex4;
    if s[0] == '\"' {
      b := SplitBlanks(s[1..]);
      ps := [];
      assert cur + PiecesMeaning(ps) == cur;
    } else {
      var p, tail;
      if s[0] == '\\' {
        tail := ParseEscape(s[1..]).rest;
        p := SoundEscape(s[1..], tail);
        assert s == ['\\'] + s[1..];
      } else {
        p, tail := Plain(s[0]), s[1..];
      }
      var ps';
      ps', b := SoundChars(tail, cur + p.Meaning(), v, rest);
      ps := [p] + ps';
      assert ps[1..] == ps';
      Assoc(cur, p.Meaning(), PiecesMeaning(ps'));
    }
  }

  lemma {:induction false} SoundRaw(s: string, cur: string, v: string, rest: string)
    returns (key: string, b: string)
    requires ParseRaw(s, cur) == Ok(v, rest)
    ensures RawKey(key) && Blank(b) && s == key + ("\"" + (b + rest))
    ensures v == cur + key
    decreases |s|
  {
    if s[0] == '\"' {
      b := SplitBlanks(s[1..]);
      key := [];
    } else {
      key, b := SoundRaw(s[1..], cur + [s[0]], v, rest);
      Assoc(cur, [s[0]], key);
      Assoc([s[0]], key, "\"" + (b + rest));
      assert s == [s[0]] + s[1..];
      key := [s[0]] + key;
    }
  }

  // s is a number in which strtod has stopped in front of a character that numbers can have.
  predicate CutShort(s: string, rest: string) {
    (Head(s) == '-' || IsDigit(Head(s))) && !PlainInteger(Word(s)) && NumberChar(Head(rest))
  }

  lemma NotCutShort(s: string, rest: string)
    requires var c := Head(SkipBlanks(rest)); c == ',' || c == ']' || c == '}'
    ensures !CutShort(s, rest)
  {
  }

  lemma SoundNumber(s: string, v: Value, rest: string) returns (t: Tree, b: string)
    requires ParseNumber(s) == Ok(v, rest) && !CutShort(s, rest)
    ensures Valid(t) && Blank(b)
    ensures s == Write(t, b + rest) && v == Meaning(t)
  {
    hide Strtod, Converted, DigitsValue, PlainInteger;
    var word := Word(s);
    var n := Strtod(word).length;
    b := SplitBlanks(s[n..]);
    if PlainInteger(word) {
      t := SoundInteger(s, word);
    } else {
      t := SoundOther(s, rest);
    }
  }

  lemma WordGoesOn(s: string, n: nat)
    requires n < |Word(s)|
    ensures NumberChar(Head(SkipBlanks(s[n..])))
  {
    assert s[n] == Word(s)[n];
  }

  lemma SoundOther(s: string, rest: string) returns (t: Tree)
    requires (Head(s) == '-' || IsDigit(Head(s))) && !PlainInteger(Word(s)) && !CutShort(s, rest)
    requires Strtod(Word(s)).length > 0 && rest == SkipBlanks(s[Strtod(Word(s)).length..])
    ensures Valid(t) && t.TOther? && Converted(Strtod(Word(s)).value) == Meaning(t)
    ensures Write(t, s[Strtod(Word(s)).length..]) == s
  {
    hide Strtod, Converted, PlainInteger;
    var word := Word(s);
    var n := Strtod(word).length;
    if n < |word| { WordGoesOn(s, n); }
    t := TOther(word);
    assert word[0] == s[0] && s == word + s[n..];
  }

  lemma ReadInteger(word: string) returns (ds: string)
    requires PlainInteger(word)
    ensures ds != [] && AllDigits(ds) && ds <= Unsigned(word)
    ensures var neg := Head(word) == '-';
            && Valid(TNum(neg, ds)) && Unsigned(word) == (if neg then word[1..] else word)
            && Strtod(word) == Reading(|ds| + if neg then 1 else 0, Finite(Signed(neg, DigitsValue(ds)) as real))
  {
    hide DigitsValue, Digits;
    ds := Digits(Unsigned(word));
  }

  // s starts with a sign or not, and with ds.
  lemma SignedSplit(s: string, word: string, ds: string, neg: bool, n: nat)
    requires word <= s && neg == (Head(word) == '-') && ds <= (if neg then word[1..] else word)
    requires n == |ds| + if neg then 1 else 0
    ensures n <= |s| && s == if neg then "-" + (ds + s[n..]) else ds + s[n..]
  {
    var unsigned := if neg then s[1..] else s;
    assert ds <= unsigned && unsigned == ds + unsigned[|ds|..] && unsigned[|ds|..] == s[n..];
  }

  lemma SoundInteger(s: string, word: string) returns (t: Tree)
    requires word <= s && PlainInteger(word)
    ensures Valid(t) && t.TNum? && Converted(Strtod(word).value) == Meaning(t)
    ensures Strtod(word).length <= |s| && Write(t, s[Strtod(word).length..]) == s
  {
    hide DigitsValue, Converted, PlainInteger, Strtod, Unsigned, Head;
    var ds := ReadInteger(word);
    var neg := Head(word) == '-';
    t := TNum(neg, ds);
    IntegerStays(Signed(neg, DigitsValue(ds)));
    SignedSplit(s, word, ds, neg, Strtod(word).length);
  }

  lemma SoundBool(s: string, v: Value, rest: string) returns (t: Tree, b: string)
    requires ParseBool(s) == Ok(v, rest)
    ensures Valid(t) && Blank(b)
    ensures s == Write(t, b + rest) && v == Meaning(t)
  {
    if Head(s) == 't' {
      assert s == "true" + s[4..];
      if Head(s[4..]) == 'f' {
        assert s[4..] == "false" + s[4..][5..];
        b := SplitBlanks(s[4..][5..]);
        t := TTrueFalse;
      } else {
        b := SplitBlanks(s[4..]);
        t := TTrue;
      }
    } else {
      assert s == "false" + s[5..];
      b := SplitBlanks(s[5..]);
      t := TFalse;
    }
  }

  lemma SoundString(s: string, v: Value, rest: string) returns (t: Tree, b: string)
    requires ParseString(s) == Ok(v, rest)
    ensures Valid(t) && Blank(b)
    ensures s == Write(t, b + rest) && v == Meaning(t)
  {
    var cs := ParseChars(s[1..], []).value;
    var ps;
    ps, b := SoundChars(s[1..], [], cs, rest);
    assert [] + PiecesMeaning(ps) == PiecesMeaning(ps);
    t := TStr(ps);
  }

  // Soundness: what is read as a value is a value of the grammar, with the meaning it has there, unless it is
  // a number of which strtod reads only a part.  No array and no object with such a number is read.
  lemma {:induction false} Sound(s: string, v: Value, rest: string) returns (t: Tree, b: string)
    requires ParseValue(s) == Ok(v, rest) && !IsBlank(Head(s)) && !CutShort(s, rest)
    ensures Valid(t) && Blank(b)
    ensures s == Write(t, b + rest) && v == Meaning(t)
    decreases |s|, 2
  {
    match Head(s)
    case 't' => t, b := SoundBool(s, v, rest);
    case 'f' => t, b := SoundBool(s, v, rest);
    case 'n' =>
      t := TNull;
      b := SplitBlanks(s[4..]);
      assert s == "null" + s[4..];
    case '\"' => t, b := SoundString(s, v, rest);
    case '[' => t, b := SoundArray(s, v, rest);
    case '{' => t, b := SoundObject(s, v, rest);
    case _ => t, b := SoundNumber(s, v, rest);
  }

  lemma {:induction false} SoundArray(s: string, v: Value, rest: string) returns (t: Tree, b: string)
    requires ParseArray(s) == Ok(v, rest)
    ensures t.TArr? && Valid(t) && Blank(b)
    ensures s == Write(t, b + rest) && v == Meaning(t)
    decreases |s|, 1
  {
    var inside := SplitBlanks(s[1..]);
    var s1 := SkipBlanks(s[1..]);
    if Head(s1) == ']' {
      b := SplitBlanks(s1[1..]);
      t := TArr([], inside);
      assert s1 == "]" + (b + rest) && s == "[" + (inside + s1);
    } else {
      var es;
      es, b := SoundItems(s[1..], [], v, rest);
      assert [] + ElemsMeaning(es) == ElemsMeaning(es);
      t := TArr(es, []);
      assert s == "[" + s[1..];
    }
  }

  // One item with the blanks around it, as the loop over the items reads it.
  lemma {:induction false} SoundItem(s: string, v: Value, r: string) returns (e: Elem)
    requires ParseValue(SkipBlanks(s)) == Ok(v, r) && !CutShort(SkipBlanks(s), r)
    ensures ValidElems([e]) && Meaning(e.tree) == v
    ensures s == e.before + Write(e.tree, e.after + SkipBlanks(r))
    decreases |s|, 3
  {
    var before := SplitBlanks(s);
    var t, b0 := Sound(SkipBlanks(s), v, r);
    var b1 := SplitBlanks(r);
    Assoc(b0, b1, SkipBlanks(r));
    e := Elem(before, t, b0 + b1);
  }

  lemma PutFirst(e: Elem, es: seq<Elem>, k: string)
    requires ValidElems([e]) && ValidElems(es)
    ensures ValidElems([e] + es) && ElemsMeaning([e] + es) == [Meaning(e.tree)] + ElemsMeaning(es)
    ensures WriteElems([e] + es, k)
         == e.before + Write(e.tree, e.after + if es == [] then "]" + k else "," + WriteElems(es, k))
  {
    hide Meaning, Valid, Write;
    assert ([e] + es)[1..] == es && [e][1..] == [];
  }

  lemma {:induction false} SoundItems(s: string, acc: seq<Value>, v: Value, rest: string)
    returns (es: seq<Elem>, b: string)
    requires ParseItems(SkipBlanks(s), acc) == Ok(v, rest)
    ensures es != [] && ValidElems(es) && Blank(b)
    ensures s == WriteElems(es, b + rest) && v == Arr(acc + ElemsMeaning(es))
    decreases |s|, 4
  {
    hide ParseValue, Meaning, Valid, Write, CutShort, WriteElems, ValidElems, ElemsMeaning;
    assert SkipBlanks(SkipBlanks(s)) == SkipBlanks(s);
    var p := ParseValue(SkipBlanks(s));
    NotCutShort(SkipBlanks(s), p.rest);
    var e := SoundItem(s, p.value, p.rest);
    var s1 := SkipBlanks(p.rest);
    es := [];
    NoElems();
    if Head(s1) == ',' {
      es, b := SoundItems(s1[1..], acc + [p.value], v, rest);
      assert s1 == "," + WriteElems(es, b + rest);
    } else {
      b := SplitBlanks(s1[1..]);
      assert s1 == "]" + (b + rest) && acc + [p.value] + [] == acc + [p.value];
    }
    PutFirst(e, es, b + rest);
    Assoc(acc, [p.value], ElemsMeaning(es));
    es := [e] + es;
  }

  lemma NoElems()
    ensures ValidElems([]) && ElemsMeaning([]) == []
  {
  }

  lemma {:induction false} SoundObject(s: string, v: Value, rest: string) returns (t: Tree, b: string)
    requires ParseObject(s) == Ok(v, rest)
    ensures t.TObj? && Valid(t) && Blank(b)
    ensures s == Write(t, b + rest) && v == Meaning(t)
    decreases |s|, 1
  {
    var inside := SplitBlanks(s[1..]);
    var s1 := SkipBlanks(s[1..]);
    if Head(s1) == '}' {
      b := [];
      t := TObj([], inside);
      assert s1 == "}" + (b + rest) && s == "{" + (inside + s1);
    } else {
      var fs;
      fs, b := SoundMembers(s[1..], map[], v, rest);
      t := TObj(fs, []);
      assert s == "{" + s[1..];
    }
  }

  lemma {:induction false} SoundMember(s: string, kv: (string, Value), rest: string) returns (f: Field)
    requires ParseMember(s) == Ok(kv, rest) && (var c := Head(SkipBlanks(rest)); c == ',' || c == '}')
    ensures ValidField(f) && f.before == [] && s == WriteField(f, rest)
    ensures kv == (f.key, Meaning(f.tree))
    decreases |s|, 2
  {
    hide ParseValue, ParseRaw, Meaning, Valid, Write, CutShort, SkipBlanks;
    var r := ParseRaw(s[1..], []);
    var key, b0 := SoundRaw(s[1..], [], kv.0, r.rest);
    assert [] + key == key;
    var b1 := SplitBlanks(r.rest);
    var s1 := SkipBlanks(r.rest);
    var b2 := SplitBlanks(s1[1..]);
    NotCutShort(SkipBlanks(s1[1..]), rest);
    var t, b3 := Sound(SkipBlanks(s1[1..]), kv.1, rest);
    f := Field([], key, b0 + b1, b2, t, b3);
    Assoc(b0, b1, s1);
    assert s1 == ":" + s1[1..] && s == "\"" + s[1..];
  }

  lemma {:induction false} SoundMembers(s: string, m: map<string, Value>, v: Value, rest: string)
    returns (fs: seq<Field>, b: string)
    requires ParseMembers(SkipBlanks(s), m) == Ok(v, rest)
    ensures fs != [] && ValidFields(fs) && Blank(b)
    ensures s == WriteFields(fs, b + rest) && v == Obj(FieldsMeaning(fs, m))
    decreases |s|, 3
  {
    hide ParseValue, ParseMember, Meaning, Valid, Write;
    var before := SplitBlanks(s);
    var p := ParseMember(SkipBlanks(s));
    var f := SoundMember(SkipBlanks(s), p.value, p.rest);
    var b1 := SplitBlanks(p.rest);
    var s1 := SkipBlanks(p.rest);
    Assoc(f.after, b1, s1);
    var f' := f.(before := before, after := f.after + b1);
    assert ValidField(f') && s == before + WriteField(f', s1);
    var m' := Emplace(m, p.value.0, p.value.1);
    if Head(s1) == ',' {
      var fs';
      fs', b := SoundMembers(s1[1..], m', v, rest);
      fs := [f'] + fs';
      assert fs[1..] == fs';
      assert s1 == "," + WriteFields(fs', b + rest);
    } else {
      b := SplitBlanks(s1[1..]);
      fs := [f'];
      assert s1 == "}" + (b + rest);
      assert FieldsMeaning(fs, m) == FieldsMeaning(fs[1..], m') == m';
    }
  }

  // `text` starts with the object t, which means m.
  ghost predicate StartsWithObject(text: string, t: Tree, rest: string, m: map<string, Value>) {
    t.TObj? && Valid(t) && text == Write(t, rest) && Meaning(t) == Obj(m)
  }

  // What `load` accepts, and what it makes of it, exactly: a text that starts with an object of the grammar, and
  // the members of that object.
  lemma LoadIff(text: string, m: map<string, Value>)
    ensures Load(text) == Some(m) <==> exists t, rest :: StartsWithObject(text, t, rest, m)
  {
    if Load(text) == Some(m) {
      assert Head(text) == '{' by { OnlyBraceGivesObject(text); }
      var rest := ParseValue(text).rest;
      var t, b := Sound(text, Obj(m), rest);
      assert StartsWithObject(text, t, b + rest, m);
    }
    forall t, rest | StartsWithObject(text, t, rest, m)
      ensures Load(text) == Some(m)
    {
      Complete(t, rest);
    }
  }

  lemma OnlyBraceGivesObject(s: string)
    requires ParseValue(s).Ok? && ParseValue(s).value.Obj?
    ensures Head(s) == '{'
  {
    if Head(s) == '[' && Head(SkipBlanks(s[1..])) != ']' {
      ItemsGiveArray(SkipBlanks(s[1..]), []);
    }
  }

  lemma {:induction false} ItemsGiveArray(s: string, acc: seq<Value>)
    ensures ParseItems(s, acc).Ok? ==> ParseItems(s, acc).value.Arr?
    decreases |s|
  {
    var p := ParseValue(SkipBlanks(s));
    if p.Ok? && Head(SkipBlanks(p.rest)) == ',' {
      ItemsGiveArray(SkipBlanks(SkipBlanks(p.rest)[1..]), acc + [p.value]);
    }
  }
}
