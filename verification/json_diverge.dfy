/**
 The other half of the round trip: a document with an unsafe string or key never comes back.
 */
module JsonDiverge {
  import opened JsonValue
  import opened JsonUnicode
  import opened JsonGrammar
  import opened JsonSyntax
  import opened JsonComplete
  import opened JsonPrinter
  import opened JsonRoundTrip
  import opened Wrappers

  // How much text an escape takes: at least as much as it yields, and a quote only as its first
  // character, in which case it yields just that quote.
  lemma EscapeShape(s: string) returns (n: nat)
    requires ParseEscape(s).Ok?
    ensures 1 <= n <= |s| && ParseEscape(s).rest == s[n..] && |ParseEscape(s).value| <= n
    ensures s[0] == '\"' ==> ParseEscape(s).value == "\""
    ensures s[0] != '\"' ==> '\"' !in s[..n]
  {
    hide Encode, Join, Hex4;
    if s[0] == 'u' {
      if IsHigh(Hex4(s[1..][..4])) {
        n := 11;
        var t := s[1..][4..];
        assert t[6..] == s[n..];
        forall i | 0 <= i < n ensures s[i] != '\"' {
          assert 1 <= i < 5 ==> s[i] == s[1..][..4][i - 1];
          assert 5 <= i < 7 ==> s[i] == t[i - 5] && "\\u" <= t;
          assert 7 <= i ==> s[i] == t[2..6][i - 7];
        }
      } else {
        n := 5;
        assert s[1..][4..] == s[n..];
        forall i | 0 <= i < n ensures s[i] != '\"' {
          assert 1 <= i ==> s[i] == s[1..][..4][i - 1];
        }
      }
    } else {
      n := 1;
    }
  }

  // `cur` has been read from s[..i], and p is where the first quote of s is, or its end.  If
  // reading goes on to an end, s is not what has been read, nor a prefix of it.
  lemma {:induction false} DivergeChars(s: string, i: nat, p: nat, cur: string, k: string)
    requires i <= p <= |s| && '\"' !in s[..p] && (p < |s| ==> s[p] == '\"')
    requires |cur| <= i && (|cur| == i ==> '\\' !in s[..i])
    requires p == |s| ==> '\\' in s
    ensures var r := ParseChars(s[i..] + ("\"" + k), cur); r.Ok? ==> !(s <= r.value)
    decreases p - i
  {
    hide ParseEscape;
    var text := s[i..] + ("\"" + k);
    assert i < |s| ==> text[0] == s[i] && text[1..] == s[i + 1..] + ("\"" + k);
    if i == p {
      assert text[0] == '\"';
      assert s[..|s|] == s;
    } else if text[0] == '\\' {
      var e := ParseEscape(text[1..]);
      if e.Ok? {
        DivergeEscape(s, i, p, cur, k);
      }
    } else {
      DivergeChars(s, i + 1, p, cur + [s[i]], k);
    }
  }

  lemma {:induction false} DivergeEscape(s: string, i: nat, p: nat, cur: string, k: string)
    requires i < p <= |s| && '\"' !in s[..p] && (p < |s| ==> s[p] == '\"')
    requires |cur| <= i && s[i] == '\\'
    requires p == |s| ==> '\\' in s
    requires ParseEscape(s[i + 1..] + ("\"" + k)).Ok?
    ensures var e := ParseEscape(s[i + 1..] + ("\"" + k));
            var r := ParseChars(e.rest, cur + e.value); r.Ok? ==> !(s <= r.value)
    decreases p - i, 0
  {
    hide ParseEscape;
    var t := s[i + 1..] + ("\"" + k);
    var e := ParseEscape(t);
    var n := EscapeShape(t);
    var r := ParseChars(e.rest, cur + e.value);
    if i + 1 == p {
      if r.Ok? {
        assert t[0] == '\"';
        assert r.value[|cur|] == (cur + e.value)[|cur|] == '\"';
        assert s[|cur|] == s[..p][|cur|] != '\"';
      }
    } else {
      EscapeStays(s, i + 1, p, k, n);
      DivergeChars(s, i + 1 + n, p, cur + e.value, k);
    }
  }

  // An escape that starts in front of the first quote ends in front of it.
  lemma EscapeStays(s: string, i: nat, p: nat, k: string, n: nat)
    requires i < p <= |s| && '\"' !in s[..p] && (p < |s| ==> s[p] == '\"')
    requires var t := s[i..] + ("\"" + k); n <= |t| && (t[0] != '\"' ==> '\"' !in t[..n])
    ensures i + n <= p && (s[i..] + ("\"" + k))[n..] == s[i + n..] + ("\"" + k)
    ensures s[i] != '\"'
  {
    var t := s[i..] + ("\"" + k);
    assert t[0] == s[i] == s[..p][i];
    assert t[p - i] == '\"';
    assert forall j :: 0 <= j < n ==> t[j] == t[..n][j];
  }

  lemma FirstQuote(s: string) returns (p: nat)
    ensures p <= |s| && '\"' !in s[..p] && (p < |s| ==> s[p] == '\"')
  {
    p := 0;
    while p < |s| && s[p] != '\"'
      invariant p <= |s| && '\"' !in s[..p]
    {
      p := p + 1;
    }
  }

  lemma {:induction false} CStringPrefix(s: string)
    ensures CString(s) <= s
  {
    if s != [] && s[0] != '\0' {
      CStringPrefix(s[1..]);
    }
  }

  lemma DivergeString(s: string, k: string)
    requires !Plainly(s)
    ensures var r := ParseValue("\"" + (s + ("\"" + k))); r.Ok? ==> r.value != Str(s)
  {
    var text := "\"" + (s + ("\"" + k));
    var p := FirstQuote(s);
    assert s[..|s|] == s && s[0..] == s && text[1..] == s[0..] + ("\"" + k);
    DivergeChars(s, 0, p, [], k);
    var r := ParseChars(text[1..], []);
    if r.Ok? {
      CStringPrefix(r.value);
    }
  }

  lemma PrintedHead(d: Doc, level: Level, k: string)
    ensures SkipBlanks(WriteDoc(d, level, k)) == WriteDoc(d, level, k)
    ensures Head(WriteDoc(d, level, k)) != ']'
  {
  }

  // What follows a printed value inside an array or an object.
  lemma ReadSafe(d: Doc, level: Level, k: string)
    requires WellFormed(d) && Safe(d) && Delim(k) && !IsBlank(Head(k))
    ensures var r := ParseValue(WriteDoc(d, level, k));
            r.Ok? && r.value == Denote(d) && SkipBlanks(r.rest) == k
  {
    PrintedTree(d, level, k);
    Complete(TreeOf(d, level), k);
    SkipLeft(TreeOf(d, level), k);
  }

  // A document that is not safe is misread or not read at all.
  lemma {:induction false} Diverge(d: Doc, level: Level, k: string)
    requires WellFormed(d) && !Safe(d)
    ensures var r := ParseValue(WriteDoc(d, level, k)); r.Ok? ==> r.value != Denote(d)
    decreases d, 1
  {
    match d
    case DStr(s) => DivergeString(s, k);
    case DArr(items) =>
      DivergeItems(items, [], k);
      DivergeArray(items, level, k);
    case DObj(members) =>
      DivergeMembers(members, level, map[], k);
      DivergeObject(members, level, k);
  }

  lemma DivergeObject(members: seq<Member>, level: Level, k: string)
    requires members != []
    requires var r := ParseMembers(WriteMembers(members, level, k), map[]);
             r.Ok? ==> r.value != Obj(DenoteMembers(members, map[]))
    ensures var r := ParseValue(WriteDoc(DObj(members), level, k)); r.Ok? ==> r.value != Denote(DObj(members))
  {
    hide ParseString, ParseNumber, ParseBool, ParseNull, ParseMembers, ParseArray, DenoteMembers, WriteMembers;
    assert WriteDoc(DObj(members), level, k)[1..] == WriteMembers(members, level, k);
    MembersHead(members, level, k);
  }

  lemma DivergeArray(items: seq<Doc>, level: Level, k: string)
    requires items != []
    requires var r := ParseItems(WriteItems(items, k), []); r.Ok? ==> r.value != Arr([] + DenoteItems(items))
    ensures var r := ParseValue(WriteDoc(DArr(items), level, k)); r.Ok? ==> r.value != Denote(DArr(items))
  {
    hide ParseString, ParseNumber, ParseBool, ParseNull, ParseItems, ParseObject, DenoteItems;
    PrintedHead(items[0], Deep, if |items| == 1 then "]" + k else "," + WriteItems(items[1..], k));
    assert WriteDoc(DArr(items), level, k)[1..] == WriteItems(items, k);
    assert [] + DenoteItems(items) == DenoteItems(items);
  }

  lemma {:induction false} KeepItems(s: string, acc: seq<Value>)
    ensures var r := ParseItems(s, acc); r.Ok? ==> r.value.Arr? && acc <= r.value.items
    decreases |s|
  {
    var p := ParseValue(SkipBlanks(s));
    if p.Ok? && Head(SkipBlanks(p.rest)) == ',' {
      KeepItems(SkipBlanks(SkipBlanks(p.rest)[1..]), acc + [p.value]);
    }
  }

  lemma {:induction false} DivergeItems(items: seq<Doc>, acc: seq<Value>, k: string)
    requires forall i :: 0 <= i < |items| ==> WellFormed(items[i])
    requires exists i :: 0 <= i < |items| && !Safe(items[i])
    ensures var r := ParseItems(WriteItems(items, k), acc); r.Ok? ==> r.value != Arr(acc + DenoteItems(items))
    decreases items, 0
  {
    hide ParseValue, WriteDoc, Denote;
    var next := if |items| == 1 then "]" + k else "," + WriteItems(items[1..], k);
    var text := WriteDoc(items[0], Deep, next);
    var p := ParseValue(text);
    PrintedHead(items[0], Deep, next);
    if Safe(items[0]) {
      ReadSafe(items[0], Deep, next);
      ItemsStep(text, acc, p.value, p.rest);
      DivergeItems(items[1..], acc + [p.value], k);
      PrintedHead(items[1], Deep, if |items| == 2 then "]" + k else "," + WriteItems(items[2..], k));
      assert next[1..] == WriteItems(items[1..], k);
      assert items[1..][1..] == items[2..];
      Assoc(acc, [p.value], DenoteItems(items[1..]));
    } else {
      Diverge(items[0], Deep, next);
      if p.Ok? {
        var s1 := SkipBlanks(p.rest);
        if Head(s1) == ',' {
          KeepItems(SkipBlanks(s1[1..]), acc + [p.value]);
        }
        assert (acc + DenoteItems(items))[|acc|] == Denote(items[0]);
      }
    }
  }

  // Members once there stay, and every key that is added is a raw key.
  lemma {:induction false} KeepMembers(s: string, m: map<string, Value>)
    ensures var r := ParseMembers(s, m);
            r.Ok? ==>
              && r.value.Obj?
              && (forall key :: key in m ==> key in r.value.members && r.value.members[key] == m[key])
              && (forall key :: key in r.value.members ==> key in m || RawKey(key))
    decreases |s|
  {
    var p := ParseMember(s);
    if p.Ok? {
      KeyIsRaw(s[1..], []);
      var s1 := SkipBlanks(p.rest);
      if Head(s1) == ',' {
        KeepMembers(SkipBlanks(s1[1..]), Emplace(m, p.value.0, p.value.1));
      }
    }
  }

  lemma {:induction false} KeyIsRaw(s: string, cur: string)
    requires RawKey(cur)
    ensures ParseRaw(s, cur).Ok? ==> RawKey(ParseRaw(s, cur).value)
    decreases |s|
  {
    if s != [] && s[0] != '\0' && s[0] != '\"' {
      KeyIsRaw(s[1..], cur + [s[0]]);
    }
  }

  lemma {:induction false} DenoteKeeps(members: seq<Member>, m: map<string, Value>)
    ensures var r := DenoteMembers(members, m);
            && (forall key :: key in m ==> key in r && r[key] == m[key])
            && (forall i :: 0 <= i < |members| ==> members[i].key in r)
  {
    if members != [] {
      var m' := Emplace(m, members[0].key, Denote(members[0].value));
      DenoteKeeps(members[1..], m');
      assert forall i :: 1 <= i < |members| ==> members[i] == members[1..][i - 1];
    }
  }

  ghost predicate Distinct(members: seq<Member>, m: map<string, Value>) {
    && (forall i, j :: 0 <= i < j < |members| ==> members[i].key != members[j].key)
    && (forall i :: 0 <= i < |members| ==> members[i].key !in m)
  }

  lemma {:induction false} DivergeMembers(members: seq<Member>, level: Level, m: map<string, Value>, k: string)
    requires forall i :: 0 <= i < |members| ==> WellFormed(members[i].value)
    requires Distinct(members, m)
    requires exists i :: 0 <= i < |members| && !(RawKey(members[i].key) && Safe(members[i].value))
    ensures var r := ParseMembers(WriteMembers(members, level, k), m);
            r.Ok? ==> r.value != Obj(DenoteMembers(members, m))
    decreases members, 0
  {
    hide ParseValue, WriteDoc, Denote;
    if i :| 0 <= i < |members| && !RawKey(members[i].key) {
      KeepMembers(WriteMembers(members, level, k), m);
      DenoteKeeps(members, m);
    } else {
      var next := if |members| == 1 then "}" + k else "," + WriteMembers(members[1..], level, k);
      var key, d := members[0].key, members[0].value;
      var text := WriteMember(members[0], level, next);
      assert text == WriteMembers(members, level, k);
      ReadKey(members[0], level, next);
      if Safe(d) {
        ReadSafe(d, Below(level), next);
        assert next[1..] == WriteMembers(members[1..], level, k);
        MembersHead(members[1..], level, k);
        var m' := Emplace(m, key, Denote(d));
        assert Distinct(members[1..], m');
        DivergeMembers(members[1..], level, m', k);
        assert ParseMembers(text, m) == ParseMembers(next[1..], m');
      } else {
        Diverge(d, Below(level), next);
        DivergeMember(text, key, Denote(d), m);
        DenoteKeeps(members[1..], Emplace(m, key, Denote(d)));
      }
    }
  }

  lemma MembersHead(members: seq<Member>, level: Level, k: string)
    requires members != []
    ensures Head(WriteMembers(members, level, k)) == '\"'
    ensures SkipBlanks(WriteMembers(members, level, k)) == WriteMembers(members, level, k)
  {
  }

  lemma DivergeMember(text: string, key: string, v: Value, m: map<string, Value>)
    requires key !in m
    requires var p := ParseMember(text); p.Ok? ==> p.value.0 == key && p.value.1 != v
    ensures var r := ParseMembers(text, m);
            r.Ok? ==> r.value.Obj? && key in r.value.members && r.value.members[key] != v
  {
    var p := ParseMember(text);
    if p.Ok? {
      var s1 := SkipBlanks(p.rest);
      if Head(s1) == ',' {
        KeepMembers(SkipBlanks(s1[1..]), Emplace(m, key, p.value.1));
      }
    }
  }

  // A safe key is read in full; then it is up to the value.
  lemma ReadKey(m: Member, level: Level, k: string)
    requires RawKey(m.key)
    ensures ParseMember(WriteMember(m, level, k))
         == match ParseValue(WriteDoc(m.value, Below(level), k))
            case Ok(v, rest) => Ok((m.key, v), rest)
            case Err(e) => Err(e)
  {
    hide ParseValue, WriteDoc, ParseRaw;
    var value := WriteDoc(m.value, Below(level), k);
    var colon := Colon(level) + value;
    assert WriteMember(m, level, k)[1..] == m.key + ("\"" + colon);
    CompleteRaw(m.key, colon, []);
    assert [] + m.key == m.key;
    PrintedHead(m.value, Below(level), k);
    if level == Second {
      assert colon == " " + (":" + (" " + value));
      SkipOver(" ", ":" + (" " + value));
      assert (":" + (" " + value))[1..] == " " + value;
      SkipOver(" ", value);
    } else {
      assert colon[1..] == value;
    }
  }

  // Dumping and loading gives a document back exactly when it is safe and no member of the top object is an
  // empty array, at which `dump` reads past the end.
  lemma RoundTripIff(members: seq<Member>)
    requires WellFormed(DObj(members))
    ensures (DumpText(members).Some?
             && Load(DumpText(members).value) == Some(DenoteMembers(members, map[])))
       <==> Safe(DObj(members)) && forall i :: 0 <= i < |members| ==> members[i].value != DArr([])
  {
    if Safe(DObj(members)) {
      RoundTrip(members);
    } else {
      Diverge(DObj(members), Top, "");
    }
  }
}
