/**
 What the parser computes, as functions on the unread text.  These functions follow the control
 flow of `parse_value` and its helpers; the class `JsonParser.Parser` is proved to compute them, and
 `JsonSyntax` gives the independent grammar they are measured against.
 */
module JsonGrammar {
  import opened JsonValue
  import opened JsonUnicode
  import opened Wrappers

  datatype Ret =
    | JSON_OK
    | JSON_INVALID_VALUE
    | JSON_PARSE_STRING_0
    | JSON_MISS_SQUARE
    | JSON_PARSE_EXPECT_VALUE
    | JSON_MISS_KEY
    | JSON_MISS_COLON
    | JSON_MISS_CURLY
    | JSON_PARSE_INVALID_UNICODE_SURROGATE
    | JSON_PARSE_INVALID_UNICODE_HEX

  datatype Parse<+T> = Ok(value: T, rest: string) | Err(ret: Ret)

  predicate IsBlank(c: char) { c == '\r' || c == '\n' || c == ' ' || c == '\t' }

  predicate IsDigit(c: char) { '0' <= c <= '9' }

  // The text is followed by a NUL.
  function Head(s: string): char { if s == [] then '\0' else s[0] }

  function SkipBlanks(s: string): (r: string)
    ensures |r| <= |s|
    ensures r == [] || !IsBlank(r[0])
  {
    if s != [] && IsBlank(s[0]) then SkipBlanks(s[1..]) else s
  }

  function ParseNull(s: string): Parse<Value> {
    if "null" <= s then Ok(Null, SkipBlanks(s[4..])) else Err(JSON_INVALID_VALUE)
  }

  // After "true" the source tests the next character for 'f' as well.
  function ParseBool(s: string): Parse<Value> {
    if Head(s) == 't' then
      if !("true" <= s) then Err(JSON_INVALID_VALUE)
      else if Head(s[4..]) == 'f' then ParseFalse(s[4..])
      else Ok(Bool(true), SkipBlanks(s[4..]))
    else ParseFalse(s)
  }

  function ParseFalse(s: string): Parse<Value> {
    if "false" <= s then Ok(Bool(false), SkipBlanks(s[5..])) else Err(JSON_INVALID_VALUE)
  }

  function Digits(s: string): (ds: string)
    ensures ds <= s
    ensures forall i :: 0 <= i < |ds| ==> IsDigit(ds[i])
    ensures |ds| < |s| ==> !IsDigit(s[|ds|])
  {
    if s != [] && IsDigit(s[0]) then [s[0]] + Digits(s[1..]) else []
  }

  function DigitValue(c: char): nat
    requires IsDigit(c)
  {
    c as int - '0' as int
  }

  function DigitsValue(ds: string): nat
    requires forall i :: 0 <= i < |ds| ==> IsDigit(ds[i])
  {
    if ds == [] then 0
    else 10 * DigitsValue(ds[..|ds| - 1]) + DigitValue(ds[|ds| - 1])
  }

  function Signed(neg: bool, n: nat): int { if neg then -(n as int) else n }

  predicate IsInt32(n: int) { -0x8000_0000 <= n < 0x8000_0000 }

  // strtod goes on after the digits at one of these.
  predicate ContinuesNumber(c: char) {
    c == '.' || c == 'e' || c == 'E' || c == 'x' || c == 'X'
  }

  // And after a sign without digits at one of these: a fraction, "inf" or "nan".
  predicate StartsNumber(c: char) {
    c == '.' || c == 'i' || c == 'I' || c == 'n' || c == 'N'
  }

  // The characters that a number can have in it, decimal or not, infinite or not a number.
  predicate NumberChar(c: char) {
    || IsDigit(c) || 'A' <= c <= 'Z' || 'a' <= c <= 'z'
    || c == '+' || c == '-' || c == '.' || c == '(' || c == ')' || c == '_'
  }

  function Word(s: string): (w: string)
    ensures w <= s
    ensures forall i :: 0 <= i < |w| ==> NumberChar(w[i])
    ensures |w| < |s| ==> !NumberChar(s[|w|])
  {
    if s != [] && NumberChar(s[0]) then [s[0]] + Word(s[1..]) else []
  }

  function Unsigned(word: string): string { if Head(word) == '-' then word[1..] else word }

  // strtod reads a decimal integer, and an int32 can hold it.
  predicate PlainInteger(word: string) {
    var ds := Digits(Unsigned(word));
    && ds != [] && !ContinuesNumber(Head(Unsigned(word)[|ds|..]))
    && IsInt32(Signed(Head(word) == '-', DigitsValue(ds)))
  }

  // How many characters are read, and what they stand for.
  datatype Reading = Reading(length: nat, value: Float64)

  // What strtod makes of other words.  It may be any function: whatever is proved holds for all of them.
  const STRTOD: string -> Reading

  // strtod never looks beyond the characters a number can have in it.
  function Strtod(word: string): (r: Reading)
    ensures r.length <= |word|
  {
    var ds := Digits(Unsigned(word));
    if PlainInteger(word) then
      Reading(|word| - |Unsigned(word)| + |ds|, Finite(Signed(Head(word) == '-', DigitsValue(ds)) as real))
    else if ds == [] && !StartsNumber(Head(Unsigned(word))) then Reading(0, Finite(0.0))
    else
      var r := STRTOD(word);
      if r.length <= |word| then r else r.(length := |word|)
  }

  // A double that an int can hold becomes one.
  function Converted(d: Float64): Value {
    if d.Finite? && d.r.Floor as real == d.r && IsInt32(d.r.Floor) then Int(d.r.Floor) else Double(d)
  }

  function ParseNumber(s: string): (p: Parse<Value>)
    ensures p.Ok? ==> |p.rest| < |s|
  {
    if Head(s) != '-' && !IsDigit(Head(s)) then Err(JSON_INVALID_VALUE)
    else
      var r := Strtod(Word(s));
      if r.length == 0 then Err(JSON_INVALID_VALUE) else Ok(Converted(r.value), SkipBlanks(s[r.length..]))
  }

  function ParseUnicode(s: string): (p: Parse<string>)
    ensures p.Ok? ==> |p.rest| < |s|
  {
    if |s| < 4 || !IsHex4(s[..4]) then Err(JSON_PARSE_INVALID_UNICODE_SURROGATE)
    else
      var u := Hex4(s[..4]);
      if IsHigh(u) then ParseLow(s[4..], u) else Ok(Encode(u), s[4..])
  }

  // After a high surrogate.
  function ParseLow(s: string, high: nat): (p: Parse<string>)
    requires IsHigh(high)
    ensures p.Ok? ==> |p.rest| < |s|
  {
    if !("\\u" <= s) then Err(JSON_PARSE_INVALID_UNICODE_SURROGATE)
    else if |s| < 6 || !IsHex4(s[2..6]) then Err(JSON_PARSE_INVALID_UNICODE_HEX)
    else if !IsLow(Hex4(s[2..6])) then Err(JSON_PARSE_INVALID_UNICODE_SURROGATE)
    else Ok(Encode(Join(high, Hex4(s[2..6]))), s[6..])
  }

  predicate IsSimpleEscape(c: char) {
    c == '\"' || c == '\\' || c == '/' || c == 'b' || c == 'f' || c == 'n' || c == 'r' || c == 't'
  }

  function Unescape(c: char): char
    requires IsSimpleEscape(c)
  {
    match c
    case 'b' => Byte(8)
    case 'f' => Byte(12)
    case 'n' => '\n'
    case 'r' => '\r'
    case 't' => '\t'
    case _ => c
  }

  // After a backslash.
  function ParseEscape(s: string): (p: Parse<string>)
    ensures p.Ok? ==> |p.rest| < |s|
  {
    if s == [] then Err(JSON_PARSE_INVALID_UNICODE_SURROGATE)
    else if s[0] == 'u' then ParseUnicode(s[1..])
    else if IsSimpleEscape(s[0]) then Ok([Unescape(s[0])], s[1..])
    else Err(JSON_PARSE_INVALID_UNICODE_SURROGATE)
  }

  // After the opening quote of a string; `cur` is what has been read.
  function ParseChars(s: string, cur: string): (p: Parse<string>)
    ensures p.Ok? ==> |p.rest| < |s| && cur <= p.value
    decreases |s|
  {
    if s == [] || s[0] == '\0' then Err(JSON_PARSE_STRING_0)
    else if s[0] == '\"' then Ok(cur, SkipBlanks(s[1..]))
    else if s[0] == '\\' then
      match ParseEscape(s[1..])
      case Ok(cs, rest) => ParseChars(rest, cur + cs)
      case Err(e) => Err(e)
    else ParseChars(s[1..], cur + [s[0]])
  }

  // A string is copied with strcpy when it is put into its object, and read as a C string.
  function CString(s: string): (r: string)
    ensures '\0' !in s ==> r == s
  {
    if s == [] || s[0] == '\0' then [] else [s[0]] + CString(s[1..])
  }

  function ParseString(s: string): (p: Parse<Value>)
    ensures p.Ok? ==> |p.rest| < |s|
  {
    if Head(s) != '\"' then Err(JSON_INVALID_VALUE)
    else
      match ParseChars(s[1..], [])
      case Ok(cs, rest) => Ok(Str(CString(cs)), rest)
      case Err(e) => Err(e)
  }

  // After the opening quote of a key, where a backslash means nothing special.
  function ParseRaw(s: string, cur: string): (p: Parse<string>)
    ensures p.Ok? ==> |p.rest| < |s|
  {
    if s == [] || s[0] == '\0' then Err(JSON_PARSE_STRING_0)
    else if s[0] == '\"' then Ok(cur, SkipBlanks(s[1..]))
    else ParseRaw(s[1..], cur + [s[0]])
  }

  function ParseStringRaw(s: string): (p: Parse<string>)
    ensures p.Ok? ==> |p.rest| < |s|
  {
    if Head(s) != '\"' then Err(JSON_INVALID_VALUE) else ParseRaw(s[1..], [])
  }

  function ParseArray(s: string): (p: Parse<Value>)
    ensures p.Ok? ==> |p.rest| < |s|
    decreases |s|, 1
  {
    if Head(s) != '[' then Err(JSON_INVALID_VALUE)
    else
      var s1 := SkipBlanks(s[1..]);
      if Head(s1) == ']' then Ok(Arr([]), SkipBlanks(s1[1..])) else ParseItems(s1, [])
  }

  function ParseItems(s: string, acc: seq<Value>): (p: Parse<Value>)
    ensures p.Ok? ==> |p.rest| < |s|
    decreases |s|, 3
  {
    match ParseValue(SkipBlanks(s))
    case Err(e) => Err(e)
    case Ok(v, r) =>
      var s1 := SkipBlanks(r);
      if Head(s1) == ',' then ParseItems(SkipBlanks(s1[1..]), acc + [v])
      else if Head(s1) == ']' then Ok(Arr(acc + [v]), SkipBlanks(s1[1..]))
      else Err(JSON_MISS_SQUARE)
  }

  // An empty object is the one value after which no blanks are skipped.
  function ParseObject(s: string): (p: Parse<Value>)
    ensures p.Ok? ==> |p.rest| < |s|
    decreases |s|, 1
  {
    if Head(s) != '{' then Err(JSON_INVALID_VALUE)
    else
      var s1 := SkipBlanks(s[1..]);
      if Head(s1) == '}' then Ok(Obj(map[]), s1[1..]) else ParseMembers(s1, map[])
  }

  function ParseMembers(s: string, m: map<string, Value>): (p: Parse<Value>)
    ensures p.Ok? ==> |p.rest| < |s|
    decreases |s|, 3
  {
    match ParseMember(s)
    case Err(e) => Err(e)
    case Ok((key, v), r) =>
      var s1 := SkipBlanks(r);
      if Head(s1) == ',' then ParseMembers(SkipBlanks(s1[1..]), Emplace(m, key, v))
      else if Head(s1) == '}' then Ok(Obj(Emplace(m, key, v)), SkipBlanks(s1[1..]))
      else Err(JSON_MISS_CURLY)
  }

  function ParseMember(s: string): (p: Parse<(string, Value)>)
    ensures p.Ok? ==> |p.rest| < |s|
    decreases |s|, 2
  {
    if Head(s) != '\"' then Err(JSON_MISS_KEY)
    else
      match ParseRaw(s[1..], [])
      case Err(e) => Err(e)
      case Ok(key, r) =>
        var s1 := SkipBlanks(r);
        if Head(s1) != ':' then Err(JSON_MISS_COLON)
        else
          match ParseValue(SkipBlanks(s1[1..]))
          case Err(e) => Err(e)
          case Ok(v, rest) => Ok((key, v), rest)
  }

  // A newline, tab or carriage return in front falls through to the case of booleans.
  function ParseValue(s: string): (p: Parse<Value>)
    ensures p.Ok? ==> |p.rest| < |s|
    decreases |s|, 2
  {
    match Head(s)
    case '\0' => Err(JSON_PARSE_EXPECT_VALUE)
    case '\n' => ParseBool(SkipBlanks(s))
    case '\t' => ParseBool(SkipBlanks(s))
    case '\r' => ParseBool(SkipBlanks(s))
    case 't' => ParseBool(s)
    case 'f' => ParseBool(s)
    case 'n' => ParseNull(s)
    case '\"' => ParseString(s)
    case '[' => ParseArray(s)
    case '{' => ParseObject(s)
    case _ => ParseNumber(s)
  }

  // `load` looks at the type of the value only: text after the object does not matter.
  function Load(text: string): Option<map<string, Value>> {
    match ParseValue(text)
    case Ok(Obj(m), _) => Some(m)
    case _ => None
  }
}
