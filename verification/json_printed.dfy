/**
 What is printed for a document is JSON of RFC 8259, and means the document there, as long as its strings hold
 no quotes, backslashes and control characters.
 */
module JsonPrinted {
  import opened JsonValue
  import opened JsonGrammar
  import opened JsonSyntax
  import opened JsonPrinter
  import opened JsonRoundTrip
  import opened JsonRfc
  import opened Wrappers

  predicate Printable(s: string) { forall i :: 0 <= i < |s| ==> s[i] >= ' ' && s[i] != '\"' && s[i] != '\\' }

  predicate AllPrintable(d: Doc) {
    match d
    case DStr(s) => Printable(s)
    case DArr(items) => forall i :: 0 <= i < |items| ==> AllPrintable(items[i])
    case DObj(members) =>
      forall i :: 0 <= i < |members| ==> Printable(members[i].key) && AllPrintable(members[i].value)
    case _ => true
  }

  lemma {:induction false} PrintableIsSafe(d: Doc)
    requires AllPrintable(d)
    ensures Safe(d)
  {
    match d
    case DArr(items) => forall i | 0 <= i < |items| ensures Safe(items[i]) { PrintableIsSafe(items[i]); }
    case DObj(members) =>
      forall i | 0 <= i < |members| ensures RawKey(members[i].key) && Safe(members[i].value) {
        PrintableIsSafe(members[i].value);
      }
    case _ =>
  }

  // A number is printed without leading zeros.
  lemma {:induction false} NumberIsRfc(n: nat)
    ensures RfcDigits(NatText(n)) && RfcValue(NatText(n)) == n
    ensures n > 0 ==> NatText(n)[0] != '0'
  {
    hide Decimal, IsDigit;
    var ds := NatText(n);
    ValueOfText(ds);
    if n >= 10 {
      NumberIsRfc(n / 10);
      assert ds[0] == NatText(n / 10)[0];
    }
  }

  lemma ValueOfText(ds: string)
    requires AllDigits(ds)
    ensures (forall i :: 0 <= i < |ds| ==> Decimal(ds[i]).Some?) && RfcValue(ds) == DigitsValue(ds)
  {
    hide IsDigit, Decimal, DigitsValue, RfcValue;
    forall i | 0 <= i < |ds| ensures Decimal(ds[i]).Some? { DecimalIsDigit(ds[i]); }
    ValueIsValue(ds);
  }

  lemma {:induction false} StringIsPlain(s: string)
    requires Printable(s)
    ensures RfcPieces(PiecesOf(s)) && ProperPieces(PiecesOf(s))
    ensures forall i :: 0 <= i < |s| ==> PiecesOf(s)[i] == Plain(s[i])
  {
    if s != [] {
      StringIsPlain(s[1..]);
    }
  }

  lemma {:induction false} KeyIsRfc(key: string)
    requires Printable(key)
    ensures RfcKey(key)
  {
    hide RfcText;
    PlainName(key);
    StringIsPlain(key);
  }

  lemma {:induction false} PlainName(key: string)
    requires Printable(key)
    ensures NamePieces(key) == Some(PiecesOf(key))
  {
    if key != [] { PlainName(key[1..]); }
  }

  // The tree of the printed text is one of the RFC, and is read as the RFC means it.
  lemma {:induction false} PrintedRfc(d: Doc, level: Level)
    requires AllPrintable(d)
    ensures var t := TreeOf(d, level); Rfc(t) && Unquoted(t) && Faithful(t)
    decreases d, 1
  {
    match d
    case DInt(n) => IntegerIsRfc(n);
    case DStr(s) => StringIsPlain(s);
    case DArr(items) => PrintedElems(items);
    case DObj(members) => PrintedFields(members, level, {});
    case _ =>
  }

  lemma IntegerIsRfc(n: int32)
    ensures var t := TreeOf(DInt(n), Deep); Rfc(t) && RfcMeaning(t) == Int(n as int)
  {
    hide NatText, RfcDigits, RfcValue;
    NumberIsRfc(Magnitude(n));
  }

  lemma {:induction false} PrintedElems(items: seq<Doc>)
    requires forall i :: 0 <= i < |items| ==> AllPrintable(items[i])
    ensures var es := ElemsOf(items); RfcElems(es) && UnquotedElems(es) && FaithfulElems(es)
    decreases items, 0
  {
    if items != [] {
      PrintedRfc(items[0], Deep);
      PrintedElems(items[1..]);
      assert ElemsOf(items)[1..] == ElemsOf(items[1..]);
    }
  }

  lemma FieldIsRfc(m: Member, level: Level)
    requires Printable(m.key) && Rfc(TreeOf(m.value, Below(level)))
    ensures RfcField(FieldOf(m, level)) && '\\' !in m.key && '\"' !in m.key
  {
    hide Rfc, TreeOf, RfcKey;
    KeyIsRfc(m.key);
  }

  lemma {:induction false} PrintedFields(members: seq<Member>, level: Level, seen: set<string>)
    requires forall i :: 0 <= i < |members| ==> Printable(members[i].key) && AllPrintable(members[i].value)
    ensures var fs := FieldsOf(members, level);
            RfcFields(fs) && UnquotedFields(fs) && PlainNames(fs) && FaithfulFields(fs, seen)
    decreases members, 0
  {
    hide Rfc, TreeOf, RfcKey, Faithful, Unquoted, Printable, AllPrintable, RfcField;
    if members != [] {
      var m := members[0];
      PrintedRfc(m.value, Below(level));
      FieldIsRfc(m, level);
      PrintedFields(members[1..], level, seen + {m.key});
      var fs := FieldsOf(members, level);
      assert fs[0] == FieldOf(m, level) && fs[1..] == FieldsOf(members[1..], level);
      assert forall i :: 1 <= i < |fs| ==> fs[i] == fs[1..][i - 1];
    }
  }

  // The dumped text of such a document is a text of RFC 8259 that means the document.
  lemma DumpIsRfc(members: seq<Member>)
    requires WellFormed(DObj(members)) && AllPrintable(DObj(members))
    ensures var t := TreeOf(DObj(members), Top);
            Rfc(t) && DocText(DObj(members), Top) == Write(t, "") && RfcMeaning(t) == Denote(DObj(members))
  {
    var d := DObj(members);
    PrintableIsSafe(d);
    PrintedTree(d, Top, "");
    PrintedRfc(d, Top);
    MeaningIsRfcIff(TreeOf(d, Top));
  }
}
