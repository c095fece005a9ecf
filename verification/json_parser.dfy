/**
 The parser of `json.h` as it is written: one cursor into a text that ends in a NUL, advanced by
 mutually recursive methods.  Every read goes through `Peek`, whose precondition is that the
 terminating NUL is not passed.
 */
module JsonParser {
  import opened JsonValue
  import opened JsonUnicode
  import opened JsonGrammar

  class Parser {
    const text: string
    var cursor: nat

    constructor (text: string)
      ensures this.text == text && cursor == 0
    {
      this.text := text;
      cursor := 0;
    }

    // The character k places after the cursor; the terminating NUL is the last one there is.
    function Peek(k: nat): char
      requires cursor + k <= |text|
      reads this
    {
      if cursor + k < |text| then text[cursor + k] else '\0'
    }

    // The unread text, also when the terminating NUL itself has been read.
    ghost function Rest(): string
      reads this
    {
      if cursor <= |text| then text[cursor..] else []
    }

    // The cursor has passed the text from `before`, at most the NUL after it, and what was
    // parsed is what `spec` says.
    ghost predicate Done<T>(spec: Parse<T>, ret: Ret, val: T, before: nat)
      reads this
    {
      && cursor <= |text| + 1
      && match spec
         case Ok(v, rest) => ret == JSON_OK && v == val && before < cursor <= |text| && Rest() == rest
         case Err(e) => ret == e && e != JSON_OK
    }

    method SkipWhiteSpace()
      requires cursor <= |text|
      modifies this`cursor
      ensures old(cursor) <= cursor <= |text|
      ensures Rest() == SkipBlanks(old(Rest()))
    {
      while Peek(0) == '\r' || Peek(0) == '\n' || Peek(0) == ' ' || Peek(0) == '\t'
        invariant old(cursor) <= cursor <= |text|
        invariant SkipBlanks(Rest()) == SkipBlanks(old(Rest()))
        decreases |text| - cursor
      {
        cursor := cursor + 1;
      }
    }

    method Advance(k: nat)
      requires cursor + k <= |text|
      modifies this`cursor
      ensures cursor == old(cursor) + k && Rest() == old(Rest())[k..]
    {
      cursor := cursor + k;
    }

    method ParseNull() returns (ret: Ret, val: Value)
      requires cursor <= |text|
      modifies this`cursor
      ensures Done(JsonGrammar.ParseNull(old(Rest())), ret, val, old(cursor))
      ensures ret != JSON_OK ==> !val.Obj?
    {
      val := Null;
      if Peek(0) != 'n' || Peek(1) != 'u' || Peek(2) != 'l' || Peek(3) != 'l' {
        return JSON_INVALID_VALUE, val;
      }
      Advance(4);
      SkipWhiteSpace();
      return JSON_OK, val;
    }

    method ParseBool() returns (ret: Ret, val: Value)
      requires cursor <= |text|
      modifies this`cursor
      ensures Done(JsonGrammar.ParseBool(old(Rest())), ret, val, old(cursor))
      ensures ret != JSON_OK ==> !val.Obj?
    {
      val := Null;
      if Peek(0) != 't' && Peek(0) != 'f' {
        return JSON_INVALID_VALUE, val;
      }
      if Peek(0) == 't' {
        if Peek(1) != 'r' || Peek(2) != 'u' || Peek(3) != 'e' {
          return JSON_INVALID_VALUE, val;
        }
        assert "true" <= Rest();
        val := Bool(true);
        Advance(4);
      }
      if Peek(0) == 'f' {
        ret, val := ParseFalse();
        return;
      }
      SkipWhiteSpace();
      return JSON_OK, val;
    }

    method ParseFalse() returns (ret: Ret, val: Value)
      requires cursor <= |text|
      modifies this`cursor
      ensures Done(JsonGrammar.ParseFalse(old(Rest())), ret, val, old(cursor))
      ensures ret != JSON_OK ==> !val.Obj?
    {
      val := Null;
      if Peek(0) != 'f' || Peek(1) != 'a' || Peek(2) != 'l' || Peek(3) != 's' || Peek(4) != 'e' {
        return JSON_INVALID_VALUE, val;
      }
      Advance(5);
      SkipWhiteSpace();
      return JSON_OK, Bool(false);
    }

    method ParseNumber() returns (ret: Ret, val: Value)
      requires cursor <= |text|
      modifies this`cursor
      ensures Done(JsonGrammar.ParseNumber(old(Rest())), ret, val, old(cursor))
      ensures ret != JSON_OK ==> !val.Obj?
    {
      hide Strtod, SkipBlanks;
      val := Null;
      if Peek(0) > '9' || (Peek(0) < '0' && Peek(0) != '-') {
        return JSON_INVALID_VALUE, val;
      }
      var r := Strtod(Word(text[cursor..]));
      if r.length == 0 {
        return JSON_INVALID_VALUE, val;
      }
      if r.value.Finite? && r.value.r.Floor as real == r.value.r && IsInt32(r.value.r.Floor) {
        val := Int(r.value.r.Floor);
      } else {
        val := Double(r.value);
      }
      Advance(r.length);
      SkipWhiteSpace();
      return JSON_OK, val;
    }

    // Four hexadecimal digits; on failure the offending character, maybe the NUL, has been read.
    method ParseHex4() returns (ok: bool, u: nat)
      requires cursor <= |text|
      modifies this`cursor
      ensures cursor <= |text| + 1
      ensures ok <==> |old(Rest())| >= 4 && IsHex4(old(Rest())[..4])
      ensures !ok ==>
                && old(cursor) < cursor <= old(cursor) + 4
                && (forall k :: old(cursor) <= k < cursor - 1 ==> IsHex(text[k]))
                && (cursor <= |text| ==> !IsHex(text[cursor - 1]))
      ensures ok ==> u == Hex4(old(Rest())[..4]) && cursor == old(cursor) + 4
                     && Rest() == old(Rest())[4..]
    {
      u := 0;
      for i := 0 to 4
        invariant cursor == old(cursor) + i <= |text|
        invariant forall k :: 0 <= k < i ==> IsHex(old(Rest())[k])
        invariant i == 0 ==> u == 0
        invariant i == 1 ==> u == HexValue(old(Rest())[0])
        invariant i == 2 ==> u == HexValue(old(Rest())[0]) * 16 + HexValue(old(Rest())[1])
        invariant i == 3 ==> u == (HexValue(old(Rest())[0]) * 16 + HexValue(old(Rest())[1])) * 16
                                  + HexValue(old(Rest())[2])
        invariant i == 4 ==> u == Hex4(old(Rest())[..4])
      {
        var ch := Peek(0);
        cursor := cursor + 1;
        if !IsHex(ch) {
          return false, u;
        }
        u := u * 16 + HexValue(ch);
      }
      ok := true;
    }

    // The inner switch of `parse_string`, after a backslash.
    method ParseEscape() returns (ret: Ret, cs: string)
      requires cursor <= |text|
      modifies this`cursor
      ensures Done(JsonGrammar.ParseEscape(old(Rest())), ret, cs, old(cursor))
    {
      cs := [];
      var c := Peek(0);
      cursor := cursor + 1;
      if IsSimpleEscape(c) {
        return JSON_OK, [Unescape(c)];
      }
      if c != 'u' {
        return JSON_PARSE_INVALID_UNICODE_SURROGATE, cs;
      }
      var ok, u := ParseHex4();
      if !ok {
        return JSON_PARSE_INVALID_UNICODE_SURROGATE, cs;
      }
      if !IsHigh(u) {
        return JSON_OK, Encode(u);
      }
      ret, cs := ParseLow(u);
    }

    method ParseLow(high: nat) returns (ret: Ret, cs: string)
      requires cursor <= |text| && IsHigh(high)
      modifies this`cursor
      ensures Done(JsonGrammar.ParseLow(old(Rest()), high), ret, cs, old(cursor))
    {
      cs := [];
      var c := Peek(0);
      cursor := cursor + 1;
      if c != '\\' {
        return JSON_PARSE_INVALID_UNICODE_SURROGATE, cs;
      }
      c := Peek(0);
      cursor := cursor + 1;
      if c != 'u' {
        return JSON_PARSE_INVALID_UNICODE_SURROGATE, cs;
      }
      assert |Rest()| >= 4 ==> Rest()[..4] == old(Rest())[2..6];
      var ok, low := ParseHex4();
      if !ok {
        return JSON_PARSE_INVALID_UNICODE_HEX, cs;
      }
      if !IsLow(low) {
        return JSON_PARSE_INVALID_UNICODE_SURROGATE, cs;
      }
      return JSON_OK, Encode(Join(high, low));
    }

    method ParseString() returns (ret: Ret, val: Value)
      requires cursor <= |text|
      modifies this`cursor
      ensures Done(JsonGrammar.ParseString(old(Rest())), ret, val, old(cursor))
      ensures ret != JSON_OK ==> !val.Obj?
    {
      hide JsonGrammar.ParseEscape;
      val := Null;
      if Peek(0) != '\"' {
        return JSON_INVALID_VALUE, val;
      }
      Advance(1);
      var cur: string := [];
      while true
        invariant old(cursor) < cursor <= |text|
        invariant ParseChars(Rest(), cur) == ParseChars(old(Rest())[1..], [])
        decreases |text| - cursor
      {
        var c := Peek(0);
        cursor := cursor + 1;
        if c == '\"' {
          val := Str(CString(cur));
          SkipWhiteSpace();
          return JSON_OK, val;
        } else if c == '\\' {
          var cs;
          ret, cs := ParseEscape();
          if ret != JSON_OK {
            return;
          }
          cur := cur + cs;
        } else if c == '\0' {
          return JSON_PARSE_STRING_0, val;
        } else {
          cur := cur + [c];
        }
      }
    }

    method ParseStringRaw() returns (ret: Ret, str: string)
      requires cursor <= |text|
      modifies this`cursor
      ensures Done(JsonGrammar.ParseStringRaw(old(Rest())), ret, str, old(cursor))
    {
      str := [];
      if Peek(0) != '\"' {
        return JSON_INVALID_VALUE, str;
      }
      Advance(1);
      while true
        invariant old(cursor) < cursor <= |text|
        invariant ParseRaw(Rest(), str) == JsonGrammar.ParseStringRaw(old(Rest()))
        decreases |text| - cursor
      {
        var c := Peek(0);
        cursor := cursor + 1;
        if c == '\"' {
          SkipWhiteSpace();
          return JSON_OK, str;
        } else if c == '\0' {
          return JSON_PARSE_STRING_0, str;
        } else {
          str := str + [c];
        }
      }
    }

    method ParseArray() returns (ret: Ret, val: Value)
      requires cursor <= |text|
      modifies this`cursor
      ensures Done(JsonGrammar.ParseArray(old(Rest())), ret, val, old(cursor))
      ensures ret != JSON_OK ==> !val.Obj?
      decreases |text| - cursor, 1
    {
      val := Null;
      if Peek(0) != '[' {
        return JSON_INVALID_VALUE, val;
      }
      Advance(1);
      SkipWhiteSpace();
      if Peek(0) == ']' {
        Advance(1);
        SkipWhiteSpace();
        return JSON_OK, Arr([]);
      }
      var items: seq<Value> := [];
      while true
        invariant old(cursor) < cursor <= |text|
        invariant ParseItems(Rest(), items) == JsonGrammar.ParseArray(old(Rest()))
        decreases |text| - cursor
      {
        SkipWhiteSpace();
        var item;
        ret, item := ParseValue();
        if ret != JSON_OK {
          return;
        }
        items := items + [item];
        SkipWhiteSpace();
        if Peek(0) == ',' {
          Advance(1);
          SkipWhiteSpace();
        } else if Peek(0) == ']' {
          Advance(1);
          SkipWhiteSpace();
          return JSON_OK, Arr(items);
        } else {
          SkipWhiteSpace();
          return JSON_MISS_SQUARE, val;
        }
      }
    }

    method ParseJson() returns (ret: Ret, val: Value)
      requires cursor <= |text|
      modifies this`cursor
      ensures Done(ParseObject(old(Rest())), ret, val, old(cursor))
      ensures ret != JSON_OK ==> !val.Obj?
      decreases |text| - cursor, 1
    {
      val := Null;
      if Peek(0) != '{' {
        return JSON_INVALID_VALUE, val;
      }
      Advance(1);
      SkipWhiteSpace();
      var data: map<string, Value> := map[];
      if Peek(0) == '}' {
        Advance(1);
        return JSON_OK, Obj(data);
      }
      while true
        invariant old(cursor) < cursor <= |text|
        invariant ParseMembers(Rest(), data) == ParseObject(old(Rest()))
        decreases |text| - cursor
      {
        var key, item;
        ret, key, item := ParseMember();
        if ret != JSON_OK {
          return;
        }
        data := Emplace(data, key, item);
        SkipWhiteSpace();
        if Peek(0) == ',' {
          Advance(1);
          SkipWhiteSpace();
        } else if Peek(0) == '}' {
          Advance(1);
          SkipWhiteSpace();
          return JSON_OK, Obj(data);
        } else {
          SkipWhiteSpace();
          return JSON_MISS_CURLY, val;
        }
      }
    }

    // One turn of the loop of `parse_json`, up to the value.
    method ParseMember() returns (ret: Ret, key: string, val: Value)
      requires cursor <= |text|
      modifies this`cursor
      ensures Done(JsonGrammar.ParseMember(old(Rest())), ret, (key, val), old(cursor))
      decreases |text| - cursor, 2
    {
      key, val := [], Null;
      if Peek(0) != '\"' {
        return JSON_MISS_KEY, key, val;
      }
      ret, key := ParseStringRaw();
      if ret != JSON_OK {
        return;
      }
      SkipWhiteSpace();
      if Peek(0) != ':' {
        return JSON_MISS_COLON, key, val;
      }
      Advance(1);
      SkipWhiteSpace();
      ret, val := ParseValue();
    }

    // The cases of a newline, tab or carriage return have no `break`.
    method ParseValue() returns (ret: Ret, val: Value)
      requires cursor <= |text|
      modifies this`cursor
      ensures Done(JsonGrammar.ParseValue(old(Rest())), ret, val, old(cursor))
      ensures ret != JSON_OK ==> !val.Obj?
      decreases |text| - cursor, 2
    {
      match Peek(0)
      case '\0' => return JSON_PARSE_EXPECT_VALUE, Null;
      case '\n' => SkipWhiteSpace(); ret, val := ParseBool();
      case '\t' => SkipWhiteSpace(); ret, val := ParseBool();
      case '\r' => SkipWhiteSpace(); ret, val := ParseBool();
      case 't' => ret, val := ParseBool();
      case 'f' => ret, val := ParseBool();
      case 'n' => ret, val := ParseNull();
      case '\"' => ret, val := ParseString();
      case '[' => ret, val := ParseArray();
      case '{' => ret, val := ParseJson();
      case _ => ret, val := ParseNumber();
    }
  }

  class Json {
    var data: map<string, Value>

    constructor ()
      ensures data == map[]
    {
      data := map[];
    }

    // The old members go first, whether or not the text can be read.  The return code of the
    // parser is not looked at.
    method Load(text: string) returns (ok: bool)
      modifies this
      ensures ok <==> JsonGrammar.Load(text).Some?
      ensures data == if ok then JsonGrammar.Load(text).value else map[]
    {
      data := map[];
      var parser := new Parser(text);
      var ret, val := parser.ParseValue();
      if val.Obj? {
        data := val.members;
        return true;
      }
      return false;
    }
  }
}
