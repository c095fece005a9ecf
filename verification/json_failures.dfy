/**
 What the parser answers to texts that are not JSON: which return code stands for which mistake.
 */
module JsonFailures {
  import opened JsonUnicode
  import opened JsonGrammar
  import opened JsonSyntax
  import opened JsonComplete

  // Where nothing is left there is no value, and what does not start like a value or a blank is none.
  lemma NoValue(s: string)
    ensures s == "" || s[0] == '\0' ==> ParseValue(s) == Err(JSON_PARSE_EXPECT_VALUE)
    ensures s != "" ==>
              var c := s[0];
              || c == '\0' || c == '\n' || c == '\t' || c == '\r' || c == 't' || c == 'f' || c == 'n' || c == '\"'
              || c == '[' || c == '{' || c == '-' || '0' <= c <= '9'
              || ParseValue(s) == Err(JSON_INVALID_VALUE)
  {
  }

  // A minus without a digit, a point or the start of "inf" or "nan" after it.
  lemma LoneMinus(c: char, k: string)
    requires !('0' <= c <= '9') && c != '.' && c != 'i' && c != 'I' && c != 'n' && c != 'N'
    ensures ParseValue("-") == ParseValue("-" + ([c] + k)) == Err(JSON_INVALID_VALUE)
  {
    hide SkipBlanks;
    MinusAlone("");
    MinusAlone([c] + k);
    assert "-" + "" == "-";
  }

  lemma MinusAlone(k: string)
    requires k != "" ==> !IsDigit(k[0]) && !StartsNumber(k[0])
    ensures ParseValue("-" + k) == Err(JSON_INVALID_VALUE)
  {
    hide SkipBlanks;
    var s := "-" + k;
    NumberCase(s);
    var word := Word(s);
    assert word[0] == s[0];
    assert word[1..] == [] || word[1] == s[1];
    assert Digits(Unsigned(word)) == [];
  }

  // What strtod may look at: letters, digits, signs, points, parentheses and underscores.
  lemma WordCharacters(c: char)
    ensures NumberChar(c) <==>
              var n := c as int;
              || 48 <= n <= 57 || 65 <= n <= 90 || 97 <= n <= 122
              || n == 40 || n == 41 || n == 43 || n == 45 || n == 46 || n == 95
  {
  }

  // Words that are not plain integers go to strtod: those with a point, an exponent or an x behind the digits,
  // and those with a point, an i or an n behind the sign.
  lemma ForStrtod(neg: bool, ds: string, c: char, k: string)
    requires AllDigits(ds) && (ds == "" ==> neg)
    requires if ds == "" then c in ".iInN" else c in ".eExX"
    ensures var word := (if neg then "-" else "") + (ds + ([c] + k));
            Strtod(word) == var r := STRTOD(word); if r.length <= |word| then r else Reading(|word|, r.value)
  {
    hide DigitsValue;
    var word := (if neg then "-" else "") + (ds + ([c] + k));
    assert Unsigned(word) == ds + ([c] + k) by {
      if ds != "" { assert IsDigit(ds[0]); }
    }
    assert !IsDigit(c) by { OneOf(c); }
    CompleteDigits(ds, [c] + k);
    assert (ds + ([c] + k))[|ds|..] == [c] + k;
    OneOf(c);
  }

  lemma OneOf(c: char)
    ensures c in ".iInN" ==> StartsNumber(c) && !IsDigit(c)
    ensures c in ".eExX" ==> ContinuesNumber(c) && !IsDigit(c)
  {
  }

  // A word that is cut short.
  lemma HalfAWord(s: string)
    ensures Head(s) == 'n' && !("null" <= s) ==> ParseValue(s) == Err(JSON_INVALID_VALUE)
    ensures Head(s) == 't' && !("true" <= s) ==> ParseValue(s) == Err(JSON_INVALID_VALUE)
    ensures Head(s) == 'f' && !("false" <= s) ==> ParseValue(s) == Err(JSON_INVALID_VALUE)
    ensures "truef" <= s && !("truefalse" <= s) ==> ParseValue(s) == Err(JSON_INVALID_VALUE)
  {
    if "truef" <= s && !("truefalse" <= s) {
      assert s[4..][0] == 'f';
      assert "false" <= s[4..] ==> "truefalse" <= s;
    }
  }

  // In front of a value only a boolean can have a newline, a tab or a carriage return; a space is never allowed.
  lemma BlankInFront(c: char, b: string, t: Tree, k: string)
    requires Blank(b) && Valid(t) && (NeedsDelim(t) ==> Delim(k))
    ensures c == ' ' ==> ParseValue([c] + (b + Write(t, k))) == Err(JSON_INVALID_VALUE)
    ensures c == '\n' || c == '\t' || c == '\r' ==>
              ParseValue([c] + (b + Write(t, k)))
              == if t.TTrue? || t.TFalse? || t.TTrueFalse? then Ok(Meaning(t), SkipBlanks(k)) else Err(JSON_INVALID_VALUE)
  {
    hide Write, Meaning, Valid;
    var s := [c] + (b + Write(t, k));
    if c == ' ' {
      NumberOfNothing(s);
    } else if c == '\n' || c == '\t' || c == '\r' {
      FirstOf(t, k);
      assert s == ([c] + b) + Write(t, k);
      SkipOver([c] + b, Write(t, k));
      FirstNotBlank(t, k);
      Complete(t, k);
      BlankIsBoolean(s);
      BooleanOrNot(t, k);
    }
  }

  lemma NumberOfNothing(s: string)
    requires s != [] && s[0] == ' '
    ensures ParseValue(s) == Err(JSON_INVALID_VALUE)
  {
  }

  lemma BlankIsBoolean(s: string)
    requires s != [] && (s[0] == '\n' || s[0] == '\t' || s[0] == '\r')
    ensures ParseValue(s) == ParseBool(SkipBlanks(s))
  {
    hide ParseBool, ParseNumber, ParseArray, ParseObject, ParseString, ParseNull;
  }

  lemma BooleanOrNot(t: Tree, k: string)
    requires Valid(t) && (NeedsDelim(t) ==> Delim(k))
    ensures ParseBool(Write(t, k))
         == if t.TTrue? || t.TFalse? || t.TTrueFalse? then Ok(Meaning(t), SkipBlanks(k)) else Err(JSON_INVALID_VALUE)
  {
    hide Meaning, Valid;
    FirstOf(t, k);
    if t.TTrue? || t.TFalse? || t.TTrueFalse? {
      CompleteWord(t, k);
      CaseOfBool(Write(t, k));
    } else {
      assert Head(Write(t, k)) != 't' && Head(Write(t, k)) != 'f';
    }
  }

  lemma CaseOfBool(s: string)
    requires Head(s) == 't' || Head(s) == 'f'
    ensures ParseValue(s) == ParseBool(s)
  {
  }

  // A string that is not closed.
  lemma {:induction false} OpenChars(ps: seq<Piece>, k: string, cur: string, e: Ret)
    requires ValidPieces(ps)
    requires forall c :: ParseChars(k, c) == Err(e)
    ensures ParseChars(WritePieces(ps, k), cur) == Err(e)
  {
    if ps != [] {
      CompletePiece(ps[0], WritePieces(ps[1..], k), cur);
      OpenChars(ps[1..], k, cur + ps[0].Meaning(), e);
    }
  }

  lemma StringText(ps: seq<Piece>, k: string, e: Ret)
    requires ValidPieces(ps)
    requires forall c :: ParseChars(k, c) == Err(e)
    ensures ParseValue("\"" + WritePieces(ps, k)) == Err(e)
  {
    hide ParseChars;
    OpenChars(ps, k, [], e);
    assert ("\"" + WritePieces(ps, k))[1..] == WritePieces(ps, k);
  }

  // A string without an end.
  lemma OpenString(ps: seq<Piece>, k: string)
    requires ValidPieces(ps)
    ensures ParseValue("\"" + WritePieces(ps, "")) == Err(JSON_PARSE_STRING_0)
    ensures ParseValue("\"" + WritePieces(ps, "\0" + k)) == Err(JSON_PARSE_STRING_0)
  {
    StringText(ps, "", JSON_PARSE_STRING_0);
    StringText(ps, "\0" + k, JSON_PARSE_STRING_0);
  }

  lemma EscapeText(ps: seq<Piece>, s: string, e: Ret)
    requires ValidPieces(ps) && ParseEscape(s) == Err(e)
    ensures ParseValue("\"" + WritePieces(ps, "\\" + s)) == Err(e)
  {
    hide ParseEscape, ParseValue;
    assert ("\\" + s)[1..] == s;
    StringText(ps, "\\" + s, e);
  }

  // A backslash without an escape after it, and a \u without four hexadecimal digits.
  lemma NoEscape(ps: seq<Piece>, k: string)
    requires ValidPieces(ps)
    ensures k == "" || k[0] !in "\"\\/bfnrtu" ==>
              ParseValue("\"" + WritePieces(ps, "\\" + k)) == Err(JSON_PARSE_INVALID_UNICODE_SURROGATE)
    ensures |k| < 4 || !IsHex4(k[..4]) ==>
              ParseValue("\"" + WritePieces(ps, "\\" + ("u" + k))) == Err(JSON_PARSE_INVALID_UNICODE_SURROGATE)
  {
    hide ParseValue;
    if k == "" || k[0] !in "\"\\/bfnrtu" {
      NotSimple(k);
      EscapeText(ps, k, JSON_PARSE_INVALID_UNICODE_SURROGATE);
    }
    if |k| < 4 || !IsHex4(k[..4]) {
      assert ("u" + k)[1..] == k;
      EscapeText(ps, "u" + k, JSON_PARSE_INVALID_UNICODE_SURROGATE);
    }
  }

  lemma NotSimple(k: string)
    requires k == "" || k[0] !in "\"\\/bfnrtu"
    ensures ParseEscape(k) == Err(JSON_PARSE_INVALID_UNICODE_SURROGATE)
  {
    if k != "" {
      var c := k[0];
      assert forall i :: 0 <= i < 9 ==> "\"\\/bfnrtu"[i] != c;
      assert c != "\"\\/bfnrtu"[0] && c != "\"\\/bfnrtu"[1] && c != "\"\\/bfnrtu"[2] && c != "\"\\/bfnrtu"[3]
          && c != "\"\\/bfnrtu"[4] && c != "\"\\/bfnrtu"[5] && c != "\"\\/bfnrtu"[6] && c != "\"\\/bfnrtu"[7]
          && c != "\"\\/bfnrtu"[8];
    }
  }

  // A high surrogate with no \u after it, with one that has no four digits, and with one that is no low surrogate.
  lemma NoPair(ps: seq<Piece>, high: string, k: string)
    requires ValidPieces(ps) && IsHex4(high) && IsHigh(Hex4(high))
    ensures !("\\u" <= k) ==>
              ParseValue("\"" + WritePieces(ps, "\\" + ("u" + (high + k)))) == Err(JSON_PARSE_INVALID_UNICODE_SURROGATE)
    ensures |k| < 4 || !IsHex4(k[..4]) ==>
              ParseValue("\"" + WritePieces(ps, "\\" + ("u" + (high + ("\\u" + k)))))
              == Err(JSON_PARSE_INVALID_UNICODE_HEX)
    ensures |k| >= 4 && IsHex4(k[..4]) && !IsLow(Hex4(k[..4])) ==>
              ParseValue("\"" + WritePieces(ps, "\\" + ("u" + (high + ("\\u" + k)))))
              == Err(JSON_PARSE_INVALID_UNICODE_SURROGATE)
  {
    hide ParseValue, Hex4, IsHex;
    HighEscape(high, k);
    HighEscape(high, "\\u" + k);
    var s := "\\u" + k;
    assert |k| >= 4 ==> s[2..6] == k[..4];
    if !("\\u" <= k) { EscapeText(ps, "u" + (high + k), JSON_PARSE_INVALID_UNICODE_SURROGATE); }
    if |k| < 4 || !IsHex4(k[..4]) {
      EscapeText(ps, "u" + (high + s), JSON_PARSE_INVALID_UNICODE_HEX);
    } else if !IsLow(Hex4(k[..4])) {
      EscapeText(ps, "u" + (high + s), JSON_PARSE_INVALID_UNICODE_SURROGATE);
    }
  }

  lemma HighEscape(high: string, k: string)
    requires IsHex4(high) && IsHigh(Hex4(high))
    ensures ParseEscape("u" + (high + k)) == ParseLow(k, Hex4(high))
  {
    hide ParseLow, Hex4, IsHex;
    assert ("u" + (high + k))[1..] == high + k;
    assert (high + k)[..4] == high && (high + k)[4..] == k;
  }

  // After a value inside an array only a comma or the end of the array can come; what is wrong with a value is
  // wrong with the array.
  lemma ArrayFaults(b: string, t: Tree, k: string, s: string, e: Ret)
    requires Blank(b) && Valid(t) && (NeedsDelim(t) ==> Delim(k))
    ensures Head(SkipBlanks(k)) != ',' && Head(SkipBlanks(k)) != ']' ==>
              ParseValue("[" + (b + Write(t, k))) == Err(JSON_MISS_SQUARE)
    ensures ParseValue(SkipBlanks(s)) == Err(e) && Head(SkipBlanks(s)) != ']' ==> ParseValue("[" + s) == Err(e)
  {
    hide ParseValue, Write, Meaning, Valid;
    ArrayCase(s);
    ArrayCase(b + Write(t, k));
    SkipOver(b, Write(t, k));
    FirstNotBlank(t, k);
    Complete(t, k);
    SkipLeft(t, k);
    SkipTwice(s);
  }

  lemma SkipTwice(s: string)
    ensures SkipBlanks(SkipBlanks(s)) == SkipBlanks(s)
  {
  }

  lemma ArrayCase(s: string)
    ensures Head(SkipBlanks(s)) != ']' ==> ParseValue("[" + s) == ParseItems(SkipBlanks(s), [])
  {
    hide ParseItems, ParseNumber, ParseString, ParseObject, ParseBool, ParseNull;
    assert ("[" + s)[1..] == s;
  }

  lemma ObjectCase(s: string)
    ensures Head(SkipBlanks(s)) != '}' ==> ParseValue("{" + s) == ParseMembers(SkipBlanks(s), map[])
  {
    hide ParseMembers, ParseNumber, ParseString, ParseArray, ParseBool, ParseNull;
    assert ("{" + s)[1..] == s;
  }

  // An object starts with a quote or is empty; a key has an end; a colon comes after it.
  lemma KeyFaults(b: string, key: string, s: string)
    requires Blank(b) && RawKey(key)
    ensures Head(SkipBlanks(s)) != '}' && Head(SkipBlanks(s)) != '\"' ==> ParseValue("{" + s) == Err(JSON_MISS_KEY)
    ensures ParseValue("{" + (b + ("\"" + key))) == Err(JSON_PARSE_STRING_0)
    ensures Head(SkipBlanks(s)) != ':' ==>
              ParseValue("{" + (b + ("\"" + (key + ("\"" + s))))) == Err(JSON_MISS_COLON)
  {
    hide ParseValue, ParseRaw;
    ObjectCase(s);
    ObjectCase(b + ("\"" + key));
    ObjectCase(b + ("\"" + (key + ("\"" + s))));
    SkipOver(b, "\"" + key);
    SkipOver(b, "\"" + (key + ("\"" + s)));
    OpenKey(key, []);
    assert ("\"" + key)[1..] == key;
    assert ("\"" + (key + ("\"" + s)))[1..] == key + ("\"" + s);
    CompleteRaw(key, s, []);
    SkipTwice(s);
  }

  lemma {:induction false} OpenKey(key: string, cur: string)
    requires RawKey(key)
    ensures ParseRaw(key, cur) == Err(JSON_PARSE_STRING_0)
  {
    if key != [] { OpenKey(key[1..], cur + [key[0]]); }
  }

  // A key is what stands between its quotes.
  lemma KeyIsRead(key: string, k: string)
    requires RawKey(key)
    ensures ParseStringRaw("\"" + (key + ("\"" + k))) == Ok(key, SkipBlanks(k))
    ensures k == "" || k[0] != '\"' ==> ParseStringRaw(k) == Err(JSON_INVALID_VALUE)
  {
    hide ParseRaw, SkipBlanks;
    assert ("\"" + (key + ("\"" + k)))[1..] == key + ("\"" + k);
    CompleteRaw(key, k, []);
    assert [] + key == key;
  }

  // After the value of a member only a comma or the end of the object can come; what is wrong with the value is
  // wrong with the object.
  lemma MemberFaults(key: string, t: Tree, k: string, s: string, e: Ret)
    requires RawKey(key) && Valid(t) && (NeedsDelim(t) ==> Delim(k))
    ensures Head(SkipBlanks(k)) != ',' && Head(SkipBlanks(k)) != '}' ==>
              ParseValue("{" + ("\"" + (key + ("\"" + (":" + Write(t, k)))))) == Err(JSON_MISS_CURLY)
    ensures ParseValue(SkipBlanks(s)) == Err(e) ==>
              ParseValue("{" + ("\"" + (key + ("\"" + (":" + s))))) == Err(e)
  {
    hide ParseValue, Write, Meaning, Valid;
    KeyOver(key, Write(t, k));
    KeyOver(key, s);
    FirstNotBlank(t, k);
    Complete(t, k);
    SkipLeft(t, k);
    ObjectCase("\"" + (key + ("\"" + (":" + Write(t, k)))));
    ObjectCase("\"" + (key + ("\"" + (":" + s))));
  }

  lemma KeyOver(key: string, s: string)
    requires RawKey(key)
    ensures var p, m := ParseValue(SkipBlanks(s)), ParseMember("\"" + (key + ("\"" + (":" + s))));
            && (p.Err? ==> m == Err(p.ret))
            && (p.Ok? ==> m == Ok((key, p.value), p.rest))
  {
    hide ParseValue, ParseRaw;
    var text := "\"" + (key + ("\"" + (":" + s)));
    assert text[1..] == key + ("\"" + (":" + s));
    CompleteRaw(key, ":" + s, []);
    assert [] + key == key && (":" + s)[1..] == s;
  }
}
