/**
 The texts RFC 8259 allows, with an object at the top and without unpaired surrogates, and exactly which
 of them are read with the meaning the RFC and UTF-8 give them.
 */
module JsonRfc {
  import opened JsonValue
  import opened JsonUnicode
  import opened JsonGrammar
  import opened JsonSyntax
  import opened JsonComplete
  import opened JsonSound
  import opened Wrappers

  // Section 7: the escapes of two characters, and the code points they stand for.
  function Escaped(c: char): Option<nat> {
    match c
    case '\"' => Some(0x22)
    case '\\' => Some(0x5C)
    case '/' => Some(0x2F)
    case 'b' => Some(0x08)
    case 'f' => Some(0x0C)
    case 'n' => Some(0x0A)
    case 'r' => Some(0x0D)
    case 't' => Some(0x09)
    case _ => None
  }

  function Decimal(c: char): Option<nat> {
    match c
    case '0' => Some(0)
    case '1' => Some(1)
    case '2' => Some(2)
    case '3' => Some(3)
    case '4' => Some(4)
    case '5' => Some(5)
    case '6' => Some(6)
    case '7' => Some(7)
    case '8' => Some(8)
    case '9' => Some(9)
    case _ => None
  }

  function Hexadecimal(c: char): Option<nat> {
    match c
    case 'a' => Some(10)
    case 'b' => Some(11)
    case 'c' => Some(12)
    case 'd' => Some(13)
    case 'e' => Some(14)
    case 'f' => Some(15)
    case 'A' => Some(10)
    case 'B' => Some(11)
    case 'C' => Some(12)
    case 'D' => Some(13)
    case 'E' => Some(14)
    case 'F' => Some(15)
    case _ => Decimal(c)
  }

  predicate RfcHex(h: string) { |h| == 4 && forall i :: 0 <= i < 4 ==> Hexadecimal(h[i]).Some? }

  function RfcUnit(h: string): nat
    requires RfcHex(h)
  {
    0x1000 * Hexadecimal(h[0]).value + 0x100 * Hexadecimal(h[1]).value
    + 0x10 * Hexadecimal(h[2]).value + Hexadecimal(h[3]).value
  }

  // Section 7: no control characters, and escapes that denote a character.
  predicate RfcPiece(p: Piece) {
    match p
    case Plain(c) => c >= ' ' && c != '\"' && c != '\\'
    case Simple(c) => Escaped(c).Some?
    case Code(hex) => RfcHex(hex) && !(0xD800 <= RfcUnit(hex) <= 0xDFFF)
    case Pair(high, low) =>
      && RfcHex(high) && RfcHex(low)
      && 0xD800 <= RfcUnit(high) <= 0xDBFF && 0xDC00 <= RfcUnit(low) <= 0xDFFF
  }

  predicate RfcPieces(ps: seq<Piece>) { forall i :: 0 <= i < |ps| ==> RfcPiece(ps[i]) }

  // The UTF-8 form of what is meant; a surrogate pair is put together as section 2.2 of RFC 2781 says.
  function RfcPieceText(p: Piece): string
    requires RfcPiece(p)
  {
    match p
    case Plain(c) => [c]
    case Simple(c) => Utf8(Escaped(c).value)
    case Code(hex) => Utf8(RfcUnit(hex))
    case Pair(high, low) => Utf8(0x10000 + RfcUnit(high) % 0x400 * 0x400 + RfcUnit(low) % 0x400)
  }

  lemma HexIsHex(h: string)
    ensures RfcHex(h) <==> IsHex4(h)
    ensures IsHex4(h) ==> RfcUnit(h) == Hex4(h)
  {
    if |h| == 4 {
      OneHex(h[0]);
      OneHex(h[1]);
      OneHex(h[2]);
      OneHex(h[3]);
    }
  }

  lemma OneHex(c: char)
    ensures IsHex(c) <==> Hexadecimal(c).Some?
    ensures IsHex(c) ==> HexValue(c) == Hexadecimal(c).value
  {
  }

  // What the RFC means is what the parser computes, apart from the encoding.
  lemma PieceIsValid(p: Piece)
    requires RfcPiece(p)
    ensures p.Valid()
    ensures p.Simple? ==> RfcPieceText(p) == [Unescape(p.c)]
    ensures p.Code? ==> IsHex4(p.hex) && RfcPieceText(p) == Utf8(Hex4(p.hex))
    ensures p.Pair? ==> RfcPieceText(p) == Utf8(Join(Hex4(p.high), Hex4(p.low)))
  {
    hide RfcHex, IsHex4, RfcUnit, Hex4, Utf8;
    match p
    case Plain(_) =>
    case Simple(c) => EscapedIsUnescaped(c);
    case Code(hex) => HexIsHex(hex);
    case Pair(high, low) =>
      HexIsHex(high);
      HexIsHex(low);
      var h, l := Hex4(high), Hex4(low);
      assert h % 0x400 == h - 0xD800 && l % 0x400 == l - 0xDC00;
  }

  lemma EscapedIsUnescaped(c: char)
    ensures Escaped(c).Some? <==> IsSimpleEscape(c)
    ensures IsSimpleEscape(c) ==> Utf8(Escaped(c).value) == [Unescape(c)]
  {
  }

  function RfcText(ps: seq<Piece>): string
    requires RfcPieces(ps)
  {
    if ps == [] then "" else RfcPieceText(ps[0]) + RfcText(ps[1..])
  }

  // Section 4: a name is a string.  These are its pieces, from the characters between its quotes.
  function NamePieces(key: string): Option<seq<Piece>> {
    if key == [] then Some([])
    else if key[0] != '\\' then Before(Plain(key[0]), NamePieces(key[1..]))
    else if |key| >= 2 && Escaped(key[1]).Some? then Before(Simple(key[1]), NamePieces(key[2..]))
    else if |key| < 6 || key[1] != 'u' || !RfcHex(key[2..6]) then None
    else if !(0xD800 <= RfcUnit(key[2..6]) <= 0xDBFF) then Before(Code(key[2..6]), NamePieces(key[6..]))
    else if |key| < 12 || key[6..8] != "\\u" then None
    else Before(Pair(key[2..6], key[8..12]), NamePieces(key[12..]))
  }

  function Before(p: Piece, ps: Option<seq<Piece>>): Option<seq<Piece>> {
    match ps
    case None => None
    case Some(qs) => Some([p] + qs)
  }

  // The pieces of a name write it, and whatever pieces of the RFC write is a name with these pieces.
  lemma {:induction false} NameIsWritten(key: string)
    ensures NamePieces(key).Some? ==> WritePieces(NamePieces(key).value, "") == key
    decreases |key|
  {
    if key == [] || NamePieces(key).None? {
    } else if key[0] != '\\' {
      NameIsWritten(key[1..]);
    } else if Escaped(key[1]).Some? {
      NameIsWritten(key[2..]);
    } else if !(0xD800 <= RfcUnit(key[2..6]) <= 0xDBFF) {
      NameIsWritten(key[6..]);
      assert key == "\\u" + (key[2..6] + key[6..]);
    } else {
      NameIsWritten(key[12..]);
      assert key == "\\u" + (key[2..6] + (key[6..8] + (key[8..12] + key[12..])));
    }
  }

  lemma {:induction false} WrittenIsName(ps: seq<Piece>)
    requires RfcPieces(ps)
    ensures NamePieces(WritePieces(ps, "")) == Some(ps)
  {
    hide NamePieces;
    if ps != [] {
      WrittenIsName(ps[1..]);
      PieceIsFirst(ps[0], WritePieces(ps[1..], ""));
      assert ps == [ps[0]] + ps[1..];
    } else {
      NoPieces();
    }
  }

  lemma NoPieces()
    ensures NamePieces("") == Some([])
  {
  }

  lemma PieceIsFirst(p: Piece, k: string)
    requires RfcPiece(p)
    ensures NamePieces(p.Write(k)) == Before(p, NamePieces(k))
  {
    hide RfcUnit;
    var key := p.Write(k);
    match p
    case Plain(_) => assert key[1..] == k;
    case Simple(_) => assert key[2..] == k;
    case Code(hex) => assert key[2..6] == hex && key[6..] == k;
    case Pair(high, low) =>
      assert key[2..6] == high && key[6..8] == "\\u" && key[8..12] == low && key[12..] == k;
  }

  predicate RfcKey(key: string) { NamePieces(key).Some? && RfcPieces(NamePieces(key).value) }

  function Name(key: string): string
    requires RfcKey(key)
  {
    RfcText(NamePieces(key).value)
  }

  // Section 6: an integer part has no leading zeros.
  predicate RfcDigits(ds: string) {
    ds != [] && (forall i :: 0 <= i < |ds| ==> Decimal(ds[i]).Some?) && (|ds| > 1 ==> ds[0] != '0')
  }

  function RfcValue(ds: string): nat
    requires forall i :: 0 <= i < |ds| ==> Decimal(ds[i]).Some?
  {
    if ds == [] then 0 else 10 * RfcValue(ds[..|ds| - 1]) + Decimal(ds[|ds| - 1]).value
  }

  function RfcInteger(neg: bool, ds: string): int
    requires RfcDigits(ds)
  {
    if neg then 0 - RfcValue(ds) else RfcValue(ds)
  }

  // The integers an int32 can hold.
  predicate Fits(n: int) { -2147483648 <= n <= 2147483647 }

  function LeadingDigits(s: string): (ds: string)
    ensures ds <= s && forall i :: 0 <= i < |ds| ==> Decimal(ds[i]).Some?
    ensures |ds| < |s| ==> Decimal(s[|ds|]).None?
  {
    if s != [] && Decimal(s[0]).Some? then [s[0]] + LeadingDigits(s[1..]) else []
  }

  // A number with a fraction or an exponent, or with more digits than an int32 can hold: an integer part, and
  // after it maybe a point and digits, and maybe an exponent, maybe with a sign.
  predicate RfcNumber(word: string) {
    var neg := word != [] && word[0] == '-';
    var s := if neg then word[1..] else word;
    var ds := LeadingDigits(s);
    RfcDigits(ds) && RfcFraction(s[|ds|..]) && (s[|ds|..] == [] ==> !Fits(RfcInteger(neg, ds)))
  }

  predicate RfcFraction(s: string) {
    if s == [] || s[0] != '.' then RfcExponent(s)
    else
      var ds := LeadingDigits(s[1..]);
      ds != [] && RfcExponent(s[1..][|ds|..])
  }

  predicate RfcExponent(s: string) {
    s == [] || ((s[0] == 'e' || s[0] == 'E') &&
      var t := if |s| > 1 && (s[1] == '+' || s[1] == '-') then s[2..] else s[1..];
      t != [] && LeadingDigits(t) == t)
  }

  // A double that is one of the integers an int32 can hold is that integer.
  ghost function RfcDouble(d: Float64): Value {
    if d.Finite? && exists n: int :: Fits(n) && d.r == n as real then
      var n: int :| Fits(n) && d.r == n as real;
      Int(n)
    else Double(d)
  }

  predicate RfcBlank(s: string) {
    forall i :: 0 <= i < |s| ==> s[i] as int == 0x20 || s[i] as int == 0x09 || s[i] as int == 0x0A || s[i] as int == 0x0D
  }

  predicate Rfc(t: Tree)
    decreases t, 1
  {
    match t
    case TTrueFalse => false
    case TNum(neg, ds) => RfcDigits(ds) && Fits(RfcInteger(neg, ds))
    case TOther(word) => RfcNumber(word) && STRTOD(word).length == |word|
    case TStr(ps) => RfcPieces(ps)
    case TArr(es, inside) => RfcElems(es) && RfcBlank(inside)
    case TObj(fs, inside) => RfcFields(fs) && RfcBlank(inside)
    case _ => true
  }

  predicate RfcElems(es: seq<Elem>)
    decreases es, 0
  {
    es == [] || (RfcBlank(es[0].before) && Rfc(es[0].tree) && RfcBlank(es[0].after) && RfcElems(es[1..]))
  }

  predicate RfcField(f: Field)
    decreases f, 2
  {
    && RfcKey(f.key) && Rfc(f.tree)
    && RfcBlank(f.before) && RfcBlank(f.afterKey) && RfcBlank(f.afterColon) && RfcBlank(f.after)
  }

  predicate RfcFields(fs: seq<Field>)
    decreases fs, 0
  {
    fs == [] || (RfcField(fs[0]) && RfcFields(fs[1..]))
  }

  ghost function RfcMeaning(t: Tree): Value
    requires Rfc(t)
    decreases t, 1
  {
    match t
    case TNull => Null
    case TTrue => Bool(true)
    case TFalse => Bool(false)
    case TNum(neg, ds) => Int(RfcInteger(neg, ds))
    case TOther(word) => RfcDouble(STRTOD(word).value)
    case TStr(ps) => Str(RfcText(ps))
    case TArr(es, _) => Arr(RfcItems(es))
    case TObj(fs, _) => Obj(RfcMembers(fs))
  }

  ghost function RfcItems(es: seq<Elem>): seq<Value>
    requires RfcElems(es)
    decreases es, 0
  {
    if es == [] then [] else [RfcMeaning(es[0].tree)] + RfcItems(es[1..])
  }

  // A name stands for the value of its first occurrence.
  ghost function RfcMembers(fs: seq<Field>): map<string, Value>
    requires RfcFields(fs)
    decreases fs, 0
  {
    if fs == [] then map[]
    else assert RfcField(fs[0]); RfcMembers(fs[1..])[Name(fs[0].key) := RfcMeaning(fs[0].tree)]
  }

  // What the parser gets right.  Of a string: every escape but \u0000, where the string is cut, and those
  // for 0x7F and for 0x100 to 0x7FF, which are encoded with a byte too many.
  predicate ProperPiece(p: Piece) {
    p.Code? && RfcHex(p.hex) ==> var u := RfcUnit(p.hex); u != 0 && u != 0x7F && !(0x100 <= u <= 0x7FF)
  }

  predicate ProperPieces(ps: seq<Piece>) { forall i :: 0 <= i < |ps| ==> ProperPiece(ps[i]) }

  // Of an object: no name has an escape, and every value is right that is the first one of its name.
  predicate Faithful(t: Tree)
    decreases t, 1
  {
    match t
    case TStr(ps) => ProperPieces(ps)
    case TArr(es, _) => FaithfulElems(es)
    case TObj(fs, _) => PlainNames(fs) && FaithfulFields(fs, {})
    case _ => true
  }

  predicate FaithfulElems(es: seq<Elem>)
    decreases es, 0
  {
    es == [] || (Faithful(es[0].tree) && FaithfulElems(es[1..]))
  }

  predicate FaithfulFields(fs: seq<Field>, seen: set<string>)
    decreases fs, 0
  {
    fs == [] || ((fs[0].key in seen || Faithful(fs[0].tree)) && FaithfulFields(fs[1..], seen + {fs[0].key}))
  }

  predicate PlainNames(fs: seq<Field>) { forall i :: 0 <= i < |fs| ==> '\\' !in fs[i].key }

  // No name has an escaped quote, at any depth.
  predicate Unquoted(t: Tree)
    decreases t, 1
  {
    match t
    case TArr(es, _) => UnquotedElems(es)
    case TObj(fs, _) => UnquotedFields(fs)
    case _ => true
  }

  predicate UnquotedElems(es: seq<Elem>)
    decreases es, 0
  {
    es == [] || (Unquoted(es[0].tree) && UnquotedElems(es[1..]))
  }

  predicate UnquotedFields(fs: seq<Field>)
    decreases fs, 0
  {
    fs == [] || ('\"' !in fs[0].key && Unquoted(fs[0].tree) && UnquotedFields(fs[1..]))
  }

  predicate IsNul(p: Piece) { p.Code? && RfcHex(p.hex) && RfcUnit(p.hex) == 0 }

  lemma PieceIsRfc(p: Piece)
    requires RfcPiece(p)
    ensures p.Valid()
    ensures ProperPiece(p) ==> p.Meaning() == RfcPieceText(p) && '\0' !in RfcPieceText(p)
    ensures !ProperPiece(p) && !IsNul(p) ==> |p.Meaning()| == |RfcPieceText(p)| + 1 && '\0' !in p.Meaning()
    ensures IsNul(p) ==> RfcPieceText(p) == "\0"
  {
    hide Hex4, Join, RfcHex, RfcUnit, IsHex4, Utf8, Encode;
    PieceIsValid(p);
    match p
    case Plain(_) =>
    case Simple(c) => PrintableEscape(c);
    case Code(hex) =>
      HexIsHex(hex);
      EncodeIsUtf8Iff(Hex4(hex));
      NulOnlyFromNul(Hex4(hex));
    case Pair(high, low) =>
      EncodeIsUtf8Iff(Join(Hex4(high), Hex4(low)));
      NulOnlyFromNul(Join(Hex4(high), Hex4(low)));
  }

  lemma PrintableEscape(c: char)
    requires IsSimpleEscape(c)
    ensures Unescape(c) != '\0'
  {
  }

  lemma NulOnlyFromNul(u: nat)
    requires u <= 0x10FFFF
    ensures u != 0 ==> '\0' !in Utf8(u) && '\0' !in Encode(u)
    ensures u == 0 ==> Utf8(u) == "\0"
  {
  }

  function Improper(ps: seq<Piece>): nat {
    if ps == [] then 0 else (if ProperPiece(ps[0]) then 0 else 1) + Improper(ps[1..])
  }

  predicate HasNul(ps: seq<Piece>) { exists i :: 0 <= i < |ps| && IsNul(ps[i]) }

  // Where no NUL is escaped, the lengths tell whether everything is proper.
  lemma {:induction false} LengthsTell(ps: seq<Piece>)
    requires RfcPieces(ps) && !HasNul(ps)
    ensures ValidPieces(ps) && '\0' !in PiecesMeaning(ps)
    ensures |PiecesMeaning(ps)| == |RfcText(ps)| + Improper(ps)
    ensures ProperPieces(ps) <==> Improper(ps) == 0
    ensures ProperPieces(ps) ==> PiecesMeaning(ps) == RfcText(ps)
  {
    hide ProperPiece, IsNul, RfcPiece, RfcPieceText;
    if ps != [] {
      PieceIsRfc(ps[0]);
      LengthsTell(ps[1..]);
      assert ps == [ps[0]] + ps[1..];
    }
  }

  lemma {:induction false} NulIsMeant(ps: seq<Piece>, i: nat)
    requires RfcPieces(ps) && i < |ps| && IsNul(ps[i])
    ensures '\0' in RfcText(ps)
  {
    if i == 0 { PieceIsRfc(ps[0]); } else { NulIsMeant(ps[1..], i - 1); }
  }

  lemma {:induction false} CStringHasNoNul(s: string)
    ensures '\0' !in CString(s)
  {
    if s != [] && s[0] != '\0' { CStringHasNoNul(s[1..]); }
  }

  lemma NulIsImproper(p: Piece)
    requires IsNul(p)
    ensures !ProperPiece(p)
  {
  }

  // A string of the RFC is read as the RFC means it exactly if all its escapes are proper.
  lemma StringIsRfcIff(ps: seq<Piece>)
    requires RfcPieces(ps)
    ensures ValidPieces(ps)
    ensures CString(PiecesMeaning(ps)) == RfcText(ps) <==> ProperPieces(ps)
  {
    hide RfcPiece, RfcPieceText, ProperPiece, IsNul, CString, PiecesMeaning, RfcText;
    PiecesAreValid(ps);
    if HasNul(ps) {
      var i :| 0 <= i < |ps| && IsNul(ps[i]);
      NulIsMeant(ps, i);
      CStringHasNoNul(PiecesMeaning(ps));
      NulIsImproper(ps[i]);
    } else {
      LengthsTell(ps);
    }
  }

  lemma PiecesAreValid(ps: seq<Piece>)
    requires RfcPieces(ps)
    ensures ValidPieces(ps)
  {
    hide RfcPiece;
    forall i | 0 <= i < |ps| ensures ps[i].Valid() { PieceIsValid(ps[i]); }
  }

  // An escape is longer than what it stands for.
  lemma {:induction false} EscapesAreLonger(ps: seq<Piece>)
    requires RfcPieces(ps)
    ensures '\0' !in WritePieces(ps, "") && |RfcText(ps)| <= |WritePieces(ps, "")|
    ensures '\\' in WritePieces(ps, "") ==> |RfcText(ps)| < |WritePieces(ps, "")|
    ensures '\\' !in WritePieces(ps, "") ==> RfcText(ps) == WritePieces(ps, "") && '\"' !in RfcText(ps)
  {
    hide RfcPiece, RfcPieceText;
    if ps != [] {
      EscapesAreLonger(ps[1..]);
      EscapeIsLonger(ps[0], WritePieces(ps[1..], ""));
    }
  }

  lemma EscapeIsLonger(p: Piece, k: string)
    requires RfcPiece(p)
    ensures '\0' in p.Write(k) ==> '\0' in k
    ensures p.Plain? ==> p.Write(k) == RfcPieceText(p) + k && ('\\' in p.Write(k) ==> '\\' in k)
    ensures p.Plain? ==> '\"' !in RfcPieceText(p)
    ensures !p.Plain? ==> '\\' in p.Write(k) && |p.Write(k)| > |RfcPieceText(p)| + |k|
  {
    hide Hex4, Join, Utf8, RfcUnit, RfcHex, Hexadecimal;
    PieceIsValid(p);
    match p
    case Plain(_) =>
    case Simple(c) => assert p.Write(k)[0] == '\\' && p.Write(k)[1] == c;
    case Code(hex) =>
      Utf8IsShort(Hex4(hex));
      assert p.Write(k)[0] == '\\' && '\0' !in hex;
    case Pair(high, low) =>
      Utf8IsShort(Join(Hex4(high), Hex4(low)));
      assert p.Write(k)[0] == '\\' && '\0' !in high && '\0' !in low;
  }

  lemma Utf8IsShort(u: nat)
    requires u <= 0x10FFFF
    ensures |Utf8(u)| <= 4
  {
  }

  lemma NameFacts(key: string)
    requires RfcKey(key)
    ensures '\0' !in key
    ensures '\\' in key ==> |Name(key)| < |key|
    ensures '\\' !in key ==> Name(key) == key && '\"' !in key
  {
    NameIsWritten(key);
    EscapesAreLonger(NamePieces(key).value);
  }

  function Keys(fs: seq<Field>): set<string> { if fs == [] then {} else {fs[0].key} + Keys(fs[1..]) }

  function Names(fs: seq<Field>): set<string>
    requires RfcFields(fs)
  {
    if fs == [] then {} else assert RfcField(fs[0]); {Name(fs[0].key)} + Names(fs[1..])
  }

  function Longest(fs: seq<Field>): (n: nat)
    ensures forall k :: k in Keys(fs) ==> |k| <= n
  {
    if fs == [] then 0 else var n := Longest(fs[1..]); if |fs[0].key| > n then |fs[0].key| else n
  }

  lemma {:induction false} KeyOfName(fs: seq<Field>, name: string) returns (key: string)
    requires RfcFields(fs) && name in Names(fs)
    ensures key in Keys(fs) && RfcKey(key) && Name(key) == name
  {
    assert RfcField(fs[0]);
    if name == Name(fs[0].key) { key := fs[0].key; } else { key := KeyOfName(fs[1..], name); }
  }

  // The keys as they are written are not the names if one of them has an escape: it would be the name of
  // a longer one with an escape, and so on.
  lemma {:induction false} KeysAreNotNames(fs: seq<Field>, key: string)
    requires RfcFields(fs) && key in Keys(fs) && '\\' in key
    ensures Keys(fs) != Names(fs)
    decreases Longest(fs) - |key|
  {
    if Keys(fs) == Names(fs) {
      var longer := KeyOfName(fs, key);
      NameFacts(longer);
      KeysAreNotNames(fs, longer);
    }
  }

  lemma {:induction false} KeysOfMembers(fs: seq<Field>, m: map<string, Value>)
    requires RfcFields(fs) && ValidFields(fs)
    ensures FieldsMeaning(fs, m).Keys == m.Keys + Keys(fs)
    ensures RfcMembers(fs).Keys == Names(fs)
  {
    hide Meaning, RfcMeaning;
    if fs != [] {
      assert RfcField(fs[0]) && ValidField(fs[0]);
      KeysOfMembers(fs[1..], Emplace(m, fs[0].key, Meaning(fs[0].tree)));
    }
  }

  lemma {:induction false} FirstStays(fs: seq<Field>, m: map<string, Value>, key: string)
    requires ValidFields(fs) && key in m
    ensures key in FieldsMeaning(fs, m) && FieldsMeaning(fs, m)[key] == m[key]
  {
    hide Meaning;
    if fs != [] {
      assert ValidField(fs[0]);
      FirstStays(fs[1..], Emplace(m, fs[0].key, Meaning(fs[0].tree)), key);
    }
  }

  lemma DecimalIsDigit(c: char)
    ensures Decimal(c).Some? <==> IsDigit(c)
    ensures IsDigit(c) ==> Decimal(c).value == DigitValue(c) && NumberChar(c)
  {
  }

  lemma {:induction false} LeadIsDigits(s: string)
    ensures LeadingDigits(s) == Digits(s)
  {
    hide Decimal, IsDigit;
    if s != [] {
      DecimalIsDigit(s[0]);
      LeadIsDigits(s[1..]);
    }
  }

  lemma {:induction false} ValueIsValue(ds: string)
    requires forall i :: 0 <= i < |ds| ==> Decimal(ds[i]).Some?
    ensures AllDigits(ds) && DigitsValue(ds) == RfcValue(ds)
  {
    hide Decimal, IsDigit, DigitValue;
    if ds != [] {
      DecimalIsDigit(ds[|ds| - 1]);
      ValueIsValue(ds[..|ds| - 1]);
      assert ds == ds[..|ds| - 1] + [ds[|ds| - 1]];
    }
  }

  lemma IntegerIsInteger(neg: bool, ds: string)
    requires RfcDigits(ds)
    ensures AllDigits(ds) && Signed(neg, DigitsValue(ds)) == RfcInteger(neg, ds)
    ensures IsInt32(Signed(neg, DigitsValue(ds))) <==> Fits(RfcInteger(neg, ds))
  {
    hide Decimal, IsDigit, DigitsValue, RfcValue;
    ValueIsValue(ds);
  }

  // What follows the integer part of a number of the RFC that is not a plain integer.
  lemma FractionIsWord(s: string)
    requires RfcFraction(s)
    ensures forall i :: 0 <= i < |s| ==> NumberChar(s[i])
    ensures s != [] ==> ContinuesNumber(s[0])
  {
    hide RfcExponent, Decimal, NumberChar;
    if s != [] && s[0] == '.' {
      var ds, t := LeadingDigits(s[1..]), s[1..][|LeadingDigits(s[1..])|..];
      ExponentIsWord(t);
      forall i | 0 <= i < |ds| ensures NumberChar(ds[i]) { DecimalIsDigit(ds[i]); }
      assert s[1..] == ds + t && NumberChar('.') by { APoint(); }
    } else {
      ExponentIsWord(s);
    }
  }

  lemma APoint()
    ensures NumberChar('.')
  {
  }

  lemma ExponentIsWord(s: string)
    requires RfcExponent(s)
    ensures forall i :: 0 <= i < |s| ==> NumberChar(s[i])
    ensures s != [] ==> ContinuesNumber(s[0])
  {
    hide Decimal;
    if s != [] {
      var t := if |s| > 1 && (s[1] == '+' || s[1] == '-') then s[2..] else s[1..];
      forall i | 0 <= i < |t| ensures NumberChar(t[i]) { DecimalIsDigit(t[i]); }
      assert s == s[..|s| - |t|] + t;
    }
  }

  // The parts of a number that is no plain integer: digits, and after them something that goes on with it or
  // a value that is too large.
  lemma NumberParts(word: string) returns (neg: bool, ds: string, t: string)
    requires RfcNumber(word)
    ensures neg == (Head(word) == '-') && Unsigned(word) == ds + t && Digits(ds + t) == ds && RfcDigits(ds)
    ensures RfcFraction(t) && (t == [] ==> !Fits(RfcInteger(neg, ds)))
  {
    hide RfcFraction, RfcInteger, Fits, RfcDigits;
    neg := word != [] && word[0] == '-';
    var s := if neg then word[1..] else word;
    ds := LeadingDigits(s);
    t := s[|ds|..];
    LeadIsDigits(s);
    assert s == ds + t;
  }

  lemma NumberIsWord(word: string)
    requires RfcNumber(word)
    ensures word != [] && (word[0] == '-' || IsDigit(word[0]))
    ensures forall i :: 0 <= i < |word| ==> NumberChar(word[i])
    ensures Digits(Unsigned(word)) != [] && !PlainInteger(word)
  {
    hide RfcNumber, RfcFraction, RfcInteger, Fits, Decimal, IsDigit, NumberChar, Digits, PlainInteger;
    var neg, ds, t := NumberParts(word);
    FractionIsWord(t);
    forall i | 0 <= i < |ds| ensures NumberChar(ds[i]) { DecimalIsDigit(ds[i]); }
    DecimalIsDigit(ds[0]);
    AMinus();
    NotPlain(word, neg, ds, t);
    assert word == (if neg then "-" else "") + (ds + t);
  }

  lemma NotPlain(word: string, neg: bool, ds: string, t: string)
    requires neg == (Head(word) == '-') && Unsigned(word) == ds + t && Digits(ds + t) == ds && RfcDigits(ds)
    requires t == [] ==> !Fits(RfcInteger(neg, ds))
    requires t != [] ==> ContinuesNumber(t[0])
    ensures !PlainInteger(word)
  {
    hide RfcDigits, RfcInteger, Fits, IsInt32, ContinuesNumber, Digits, DigitsValue, Signed;
    IntegerIsInteger(neg, ds);
    assert (ds + t)[|ds|..] == t;
  }

  lemma AMinus()
    ensures NumberChar('-')
  {
  }

  lemma ConvertedIsRfc(d: Float64)
    ensures Converted(d) == RfcDouble(d)
  {
    if d.Finite? {
      if n: int :| Fits(n) && d.r == n as real {
        assert (n as real).Floor == n;
      }
      if Converted(d).Int? {
        assert Fits(d.r.Floor) && d.r == d.r.Floor as real;
      }
    }
  }

  lemma OtherNumber(word: string)
    requires RfcNumber(word) && STRTOD(word).length == |word|
    ensures ValidNumber(word) && Converted(Strtod(word).value) == RfcDouble(STRTOD(word).value)
  {
    hide RfcNumber, PlainInteger, NumberChar, Converted, RfcDouble, IsDigit;
    NumberIsWord(word);
    ConvertedIsRfc(STRTOD(word).value);
  }

  lemma BlankIsBlank(s: string)
    ensures RfcBlank(s) <==> Blank(s)
  {
  }

  lemma {:induction false} MeaningIsRfcIff(t: Tree)
    requires Rfc(t) && Unquoted(t)
    ensures Valid(t) && (Meaning(t) == RfcMeaning(t) <==> Faithful(t))
    decreases t, 1
  {
    match t
    case TArr(es, inside) =>
      ElemsAreRfcIff(es);
      BlankIsBlank(inside);
    case TObj(fs, inside) =>
      BlankIsBlank(inside);
      FieldsAreValid(fs);
      if PlainNames(fs) {
        var none: map<string, Value> := map[];
        FieldsAreRfcIff(fs, none);
        assert RfcMembers(fs) + none == RfcMembers(fs) && none.Keys == {};
      } else {
        NamesAreLost(fs);
      }
    case _ => ScalarIsRfcIff(t);
  }

  lemma ScalarIsRfcIff(t: Tree)
    requires Rfc(t) && !t.TArr? && !t.TObj?
    ensures Valid(t) && (Meaning(t) == RfcMeaning(t) <==> Faithful(t))
  {
    hide RfcDigits, RfcInteger, Fits, IsInt32, AllDigits, DigitsValue, RfcNumber, ValidNumber, Converted, RfcDouble;
    hide RfcPieces, ValidPieces, ProperPieces, CString, PiecesMeaning, RfcText, Signed;
    match t
    case TNum(neg, ds) => IntegerIsInteger(neg, ds); assert ds != [] by { SomeDigits(ds); }
    case TOther(word) => OtherNumber(word);
    case TStr(ps) => StringIsRfcIff(ps);
    case _ =>
  }

  lemma SomeDigits(ds: string)
    requires RfcDigits(ds)
    ensures ds != []
  {
  }

  lemma {:induction false} ElemsAreRfcIff(es: seq<Elem>)
    requires RfcElems(es) && UnquotedElems(es)
    ensures ValidElems(es) && (ElemsMeaning(es) == RfcItems(es) <==> FaithfulElems(es))
    decreases es, 0
  {
    if es != [] {
      MeaningIsRfcIff(es[0].tree);
      ElemsAreRfcIff(es[1..]);
      BlankIsBlank(es[0].before);
      BlankIsBlank(es[0].after);
      assert ElemsMeaning(es)[0] == Meaning(es[0].tree) && ElemsMeaning(es)[1..] == ElemsMeaning(es[1..]);
      assert RfcItems(es)[0] == RfcMeaning(es[0].tree) && RfcItems(es)[1..] == RfcItems(es[1..]);
    }
  }

  lemma {:induction false} FieldsAreValid(fs: seq<Field>)
    requires RfcFields(fs) && UnquotedFields(fs)
    ensures ValidFields(fs)
    decreases fs, 0
  {
    if fs != [] {
      assert RfcField(fs[0]);
      NameFacts(fs[0].key);
      MeaningIsRfcIff(fs[0].tree);
      BlankIsBlank(fs[0].before);
      BlankIsBlank(fs[0].afterKey);
      BlankIsBlank(fs[0].afterColon);
      BlankIsBlank(fs[0].after);
      FieldsAreValid(fs[1..]);
    }
  }

  lemma {:induction false} NamesAreLost(fs: seq<Field>)
    requires RfcFields(fs) && ValidFields(fs) && !PlainNames(fs)
    ensures FieldsMeaning(fs, map[]) != RfcMembers(fs)
  {
    var i :| 0 <= i < |fs| && '\\' in fs[i].key;
    KeyIsThere(fs, i);
    KeysAreNotNames(fs, fs[i].key);
    KeysOfMembers(fs, map[]);
  }

  lemma {:induction false} KeyIsThere(fs: seq<Field>, i: nat)
    requires i < |fs|
    ensures fs[i].key in Keys(fs)
  {
    if i > 0 { KeyIsThere(fs[1..], i - 1); }
  }

  lemma {:induction false} FieldsAreRfcIff(fs: seq<Field>, m: map<string, Value>)
    requires RfcFields(fs) && UnquotedFields(fs) && PlainNames(fs) && ValidFields(fs)
    ensures FieldsMeaning(fs, m) == RfcMembers(fs) + m <==> FaithfulFields(fs, m.Keys)
    decreases fs, 0
  {
    if fs == [] {
      assert RfcMembers(fs) + m == m;
    } else {
      var f := fs[0];
      assert RfcField(f) && ValidField(f) && '\\' !in f.key;
      NameFacts(f.key);
      MeaningIsRfcIff(f.tree);
      var m' := Emplace(m, f.key, Meaning(f.tree));
      assert m'.Keys == m.Keys + {f.key};
      FieldsAreRfcIff(fs[1..], m');
      FirstField(fs, m);
    }
  }

  // The first field is either overshadowed or right, or else what it means stays wrong.
  lemma FirstField(fs: seq<Field>, m: map<string, Value>)
    requires fs != [] && RfcField(fs[0]) && ValidField(fs[0]) && Name(fs[0].key) == fs[0].key
    requires RfcFields(fs) && ValidFields(fs)
    ensures var m' := Emplace(m, fs[0].key, Meaning(fs[0].tree));
            if fs[0].key in m || Meaning(fs[0].tree) == RfcMeaning(fs[0].tree) then
              RfcMembers(fs) + m == RfcMembers(fs[1..]) + m'
            else FieldsMeaning(fs, m) != RfcMembers(fs) + m
  {
    hide Meaning, RfcMeaning, Rfc, Valid, Name;
    var f := fs[0];
    var m' := Emplace(m, f.key, Meaning(f.tree));
    if f.key in m || Meaning(f.tree) == RfcMeaning(f.tree) {
      assert RfcMembers(fs) + m == RfcMembers(fs[1..]) + m';
    } else {
      FirstStays(fs[1..], m', f.key);
      assert (RfcMembers(fs) + m)[f.key] == RfcMeaning(f.tree);
    }
  }

  // No name in v has a quote, at any depth.
  ghost predicate Clean(v: Value) {
    match v
    case Arr(items) => forall i :: 0 <= i < |items| ==> Clean(items[i])
    case Obj(members) => forall k :: k in members ==> '\"' !in k && Clean(members[k])
    case _ => true
  }

  lemma {:induction false} MeaningIsClean(t: Tree)
    requires Valid(t)
    ensures Clean(Meaning(t))
    decreases t, 1
  {
    match t
    case TArr(es, _) => ElemsAreClean(es);
    case TObj(fs, _) => FieldsAreClean(fs, map[]);
    case _ =>
  }

  lemma {:induction false} ElemsAreClean(es: seq<Elem>)
    requires ValidElems(es)
    ensures Clean(Arr(ElemsMeaning(es)))
    decreases es, 0
  {
    if es != [] {
      MeaningIsClean(es[0].tree);
      ElemsAreClean(es[1..]);
    }
  }

  lemma {:induction false} FieldsAreClean(fs: seq<Field>, m: map<string, Value>)
    requires ValidFields(fs) && Clean(Obj(m))
    ensures Clean(Obj(FieldsMeaning(fs, m)))
    decreases fs, 0
  {
    if fs != [] {
      var f := fs[0];
      assert ValidField(f);
      MeaningIsClean(f.tree);
      FieldsAreClean(fs[1..], Emplace(m, f.key, Meaning(f.tree)));
    }
  }

  // Whatever is loaded, no name in it has a quote: a key ends at the first one, escaped or not.
  lemma LoadedIsClean(text: string, m: map<string, Value>)
    requires Load(text) == Some(m)
    ensures Clean(Obj(m))
  {
    hide Clean, Meaning, Valid, Write;
    LoadIff(text, m);
    var t, rest :| StartsWithObject(text, t, rest, m);
    MeaningIsClean(t);
  }

  // Nor is there one in anything that would be read right.
  lemma {:induction false} FaithfulIsClean(t: Tree)
    requires Rfc(t) && Faithful(t)
    ensures Clean(RfcMeaning(t))
    decreases t, 1
  {
    match t
    case TArr(es, _) => FaithfulItems(es);
    case TObj(fs, _) => FaithfulMembers(fs, {});
    case _ =>
  }

  lemma {:induction false} FaithfulItems(es: seq<Elem>)
    requires RfcElems(es) && FaithfulElems(es)
    ensures Clean(Arr(RfcItems(es)))
    decreases es, 0
  {
    if es != [] {
      FaithfulIsClean(es[0].tree);
      FaithfulItems(es[1..]);
    }
  }

  lemma {:induction false} FaithfulMembers(fs: seq<Field>, seen: set<string>)
    requires RfcFields(fs) && PlainNames(fs) && FaithfulFields(fs, seen)
    ensures forall k :: k in RfcMembers(fs) ==> '\"' !in k && (k !in seen ==> Clean(RfcMembers(fs)[k]))
    decreases fs, 0
  {
    if fs != [] {
      var f := fs[0];
      assert RfcField(f) && '\\' !in f.key;
      NameFacts(f.key);
      FaithfulMembers(fs[1..], seen + {f.key});
      if f.key !in seen { FaithfulIsClean(f.tree); }
    }
  }

  // Which objects of the RFC are loaded as it means them, whatever comes after them: exactly those in which
  // no name has an escape and every string is proper, apart from values that do not count because their name has
  // been there before.  (In such a value a name with an escaped quote is not allowed for: what follows is then
  // read out of step.)  An object without an escaped quote in any name is always loaded, right or wrong.
  lemma RfcTextsIff(t: Tree, rest: string)
    requires Rfc(t) && t.TObj? && (Unquoted(t) || !Clean(RfcMeaning(t)))
    ensures Load(Write(t, rest)) == Some(RfcMembers(t.fields)) <==> Faithful(t)
    ensures Unquoted(t) ==> Load(Write(t, rest)).Some?
  {
    hide Clean, Write;
    if Unquoted(t) {
      MeaningIsRfcIff(t);
      Complete(t, rest);
    } else if Load(Write(t, rest)) == Some(RfcMembers(t.fields)) {
      LoadedIsClean(Write(t, rest), RfcMembers(t.fields));
    } else if Faithful(t) {
      FaithfulIsClean(t);
    }
  }

  // So these are loaded, the first of several members with one name winning.
  lemma RfcTextsLoad(t: Tree, rest: string)
    requires Rfc(t) && t.TObj? && Unquoted(t) && Faithful(t)
    ensures Load(Write(t, rest)) == Some(RfcMembers(t.fields))
  {
    RfcTextsIff(t, rest);
  }

  const ODD := TObj([Field("", "a", "", "", TTrueFalse, "")], "")

  lemma OddText()
    ensures Valid(ODD) && ODD.TObj? && Write(ODD, "]]") == "{\"a\":truefalse}]]"
  {
    var f := ODD.fields[0];
    assert ValidField(f) && ODD.fields[1..] == [];
    var value := Write(TTrueFalse, "" + ("}" + "]]"));
    assert value == "truefalse}]]";
    assert WriteField(f, "}" + "]]") == "\"" + ("a" + ("\"" + ("" + (":" + ("" + value)))));
    assert Write(ODD, "]]") == "{" + ("" + WriteField(f, "}" + "]]"));
  }

  lemma OddMeaning()
    requires Valid(ODD)
    ensures Meaning(ODD) == Obj(map["a" := Bool(false)])
  {
    assert ODD.fields[1..] == [] && ValidField(ODD.fields[0]);
    assert FieldsMeaning(ODD.fields, map[]) == map["a" := Bool(false)];
  }

  // But the parser also reads texts that no RFC would call JSON: here a "truefalse" that is false,
  // and characters after the object.
  lemma ReadsMoreThanRfc()
    ensures Load("{\"a\":truefalse}]]") == Some(map["a" := Bool(false)])
  {
    hide Write, Valid, Meaning, ParseValue;
    OddText();
    OddMeaning();
    Complete(ODD, "]]");
  }
}
