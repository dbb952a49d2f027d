/** Canonical text reads back as the value it was written from, and reading then writing settles. */
module JsonRoundTrip {
  import opened Units
  import opened Sums
  import opened Catalog
  import opened Decimal
  import opened Json
  import opened JsonText

  /** What may follow a value in canonical text. */
  predicate Follows(rest: string) {
    rest == "" || rest[0] == ',' || rest[0] == ']' || rest[0] == '}'
  }

  // ----- numbers -----

  lemma {:induction false} RunOfDigits(s: string, rest: string)
    requires AllDigits(s) && (rest == "" || !IsDigit(rest[0]))
    ensures DigitRun(s + rest) == |s|
  {
    var t := s + rest;
    if s == "" {
      assert t == rest;
    } else {
      assert t[1..] == s[1..] + rest;
      RunOfDigits(s[1..], rest);
    }
  }

  lemma NumberReadsBack(i: int, rest: string)
    requires IsInt64(i) && Follows(rest)
    ensures Number(ToDecimal(i) + rest) == Got(Int(i), rest)
  {
    hide Digits, ValueOf, Parsed;
    var n: nat := if i < 0 then -i else i;
    var d := Digits(n);
    DigitsDenote(n);
    assert IsDigit(d[0]);
    DecimalRoundTrip(i);
    assert ToDecimal(i) == (if i < 0 then "-" else "") + d;
    NumberIsRead(i < 0, d, rest, i);
  }

  /** A sign, a run of digits without a leading zero, and something that ends it. */
  lemma NumberIsRead(neg: bool, d: string, rest: string, v: int)
    requires AllDigits(d) && d != "" && (|d| > 1 ==> d[0] != '0') && Follows(rest)
    requires Parsed((if neg then "-" else "") + d) == Some(v)
    ensures Number((if neg then "-" else "") + d + rest) == Got(Int(v), rest)
  {
    hide Parsed, DigitRun;
    var s := (if neg then "-" else "") + d;
    var t, u := s + rest, d + rest;
    RunOfDigits(d, rest);
    assert u[0] == d[0] && IsDigit(d[0]) && u[|d|..] == rest && t[..|s|] == s;
    if neg {
      assert t[0] == '-' && t[1..] == u;
    } else {
      assert s == d && t == u;
    }
  }

  // ----- how text starts -----

  /** Canonical text starts with a character that is neither space nor comment nor closing. */
  lemma TextStarts(v: Json)
    ensures var s := Text(v); s != "" && !IsWs(s[0]) && s[0] != '/' && s[0] != ']' && s[0] != '}' && s[0] as int < 0x80
  {
    hide ItemsText, MembersText, Escaped, Digits, ValueOf;
    if v.Int? {
      DigitsDenote(if v.i < 0 then -v.i else v.i);
      var d := Digits(if v.i < 0 then -v.i else v.i);
      assert IsDigit(d[0]);
    }
  }

  lemma NothingSkipped(s: string, rest: string)
    requires s != "" && !IsWs(s[0]) && s[0] != '/'
    ensures Ws(s + rest) == Some(s + rest)
  {
  }

  lemma FollowIsKept(rest: string)
    requires Follows(rest)
    ensures Ws(rest) == Some(rest)
  {
  }

  // ----- values -----

  lemma ItemRead(lim: Limits, t: string, depth: nat, acc: seq<Json>, v: Json, r: string)
    requires |acc| < lim.maxArray && ParseValue(lim, t, depth + 1) == Got(v, r) && Ws(r) == Some(r) && r != ""
    ensures r[0] == ']' ==> Items(lim, t, depth, acc) == Got(Arr(acc + [v]), r[1..])
    ensures r[0] == ',' ==> Items(lim, t, depth, acc) == Items(lim, r[1..], depth, acc + [v])
  {
    hide ParseValue;
  }

  lemma {:induction false} ItemsReadBack(lim: Limits, items: seq<Json>, k: nat, depth: nat, rest: string)
    requires k < |items| <= lim.maxArray && forall i | 0 <= i < |items| :: Printable(lim, items[i], depth + 1)
    ensures Items(lim, ItemsText(items, k) + ("]" + rest), depth, items[..k]) == Got(Arr(items), rest)
    decreases items, |items| - k
  {
    hide Text, ParseValue, Printable, Items, ItemsText;
    var last := k + 1 == |items|;
    var after := if last then "]" + rest else "," + (ItemsText(items, k + 1) + ("]" + rest));
    var t := ItemsText(items, k) + ("]" + rest);
    ItemsTextSplits(items, k, "]" + rest);
    ValueReadsBack(lim, items[k], depth + 1, after);
    FollowIsKept(after);
    ItemRead(lim, t, depth, items[..k], items[k], after);
    assert items[..k] + [items[k]] == items[..k + 1];
    if last {
      assert items[..k + 1] == items && after[1..] == rest;
    } else {
      ItemsReadBack(lim, items, k + 1, depth, rest);
      assert after[1..] == ItemsText(items, k + 1) + ("]" + rest);
    }
  }

  lemma ItemsTextSplits(items: seq<Json>, k: nat, close: string)
    requires k < |items|
    ensures ItemsText(items, k) + close == Text(items[k]) + (if k + 1 == |items| then close
            else "," + (ItemsText(items, k + 1) + close))
  {
    hide Text;
    if k + 1 == |items| {
      assert Text(items[k]) + "" == Text(items[k]);
    } else {
      Regroup(Text(items[k]), "," + ItemsText(items, k + 1), close);
      Regroup(",", ItemsText(items, k + 1), close);
    }
  }

  lemma MembersTextSplits(ms: seq<Member>, k: nat, close: string)
    requires k < |ms|
    ensures MembersText(ms, k) + close ==
              Quoted(ms[k].key) + (":" + (Text(ms[k].value) + (if k + 1 == |ms| then close
                  else "," + (MembersText(ms, k + 1) + close))))
  {
    hide Text, Quoted;
    var q, x := Quoted(ms[k].key), Text(ms[k].value);
    var more := if k + 1 < |ms| then "," + MembersText(ms, k + 1) else "";
    var tail := if k + 1 == |ms| then close else "," + (MembersText(ms, k + 1) + close);
    assert more + close == tail by {
      if k + 1 < |ms| {
        Regroup(",", MembersText(ms, k + 1), close);
      }
    }
    Regroup(q + ":" + x, more, close);
    Regroup(q + ":", x, tail);
    Regroup(q, ":", x + tail);
  }

  /** In ascending order, each next key is new and goes last. */
  lemma NextKeyGoesLast(ms: seq<Member>, k: nat)
    requires KeysAscend(ms) && k < |ms|
    ensures !HasKey(ms[..k], ms[k].key) && Insert(ms[..k], ms[k]) == ms[..k + 1]
  {
    forall i | 0 <= i < k ensures ms[..k][i].key != ms[k].key {
      LessIsStrict(ms[i].key, ms[k].key);
    }
    assert ms[..k] + [ms[k]] == ms[..k + 1];
  }

  lemma QuotedReadsBack(s: string, tail: string)
    requires ValidUtf8(s)
    ensures (Quoted(s) + tail) != "" && (Quoted(s) + tail)[0] == '"' && Chars((Quoted(s) + tail)[1..]) == Got(s, tail)
  {
    hide Chars, Escaped;
    StringReadsBack(s, tail);
    Regroup("\"" + Escaped(s), "\"", tail);
    Regroup("\"", Escaped(s), "\"" + tail);
    assert (Quoted(s) + tail)[1..] == Escaped(s) + ("\"" + tail);
  }

  lemma KeyReadsBack(lim: Limits, acc: seq<Member>, key: string, tail: string)
    requires ValidUtf8(key) && !HasKey(acc, key) && |acc| < lim.maxKeys
    ensures Key(lim, Quoted(key) + (":" + tail), acc) == Got(key, tail)
  {
    hide Chars, Quoted, HasKey;
    var t := Quoted(key) + (":" + tail);
    QuotedReadsBack(key, ":" + tail);
    assert Ws(t) == Some(t);
    assert Ws(":" + tail) == Some(":" + tail) && (":" + tail)[1..] == tail;
  }

  lemma {:induction false} MembersReadBack(lim: Limits, ms: seq<Member>, k: nat, depth: nat, rest: string)
    requires k < |ms| <= lim.maxKeys && KeysAscend(ms)
    requires forall i | 0 <= i < |ms| :: ValidUtf8(ms[i].key) && Printable(lim, ms[i].value, depth + 1)
    ensures Members(lim, MembersText(ms, k) + ("}" + rest), depth, ms[..k]) == Got(Obj(ms), rest)
    decreases ms, |ms| - k
  {
    hide Text, ParseValue, Printable, Quoted, Key, Insert, ValidUtf8;
    var last := k + 1 == |ms|;
    var after := if last then "}" + rest else "," + (MembersText(ms, k + 1) + ("}" + rest));
    MembersTextSplits(ms, k, "}" + rest);
    NextKeyGoesLast(ms, k);
    KeyReadsBack(lim, ms[..k], ms[k].key, Text(ms[k].value) + after);
    ValueReadsBack(lim, ms[k].value, depth + 1, after);
    FollowIsKept(after);
    assert Member(ms[k].key, ms[k].value) == ms[k];
    if last {
      assert ms[..k + 1] == ms && after[1..] == rest;
    } else {
      MembersReadBack(lim, ms, k + 1, depth, rest);
      assert after[1..] == MembersText(ms, k + 1) + ("}" + rest);
    }
  }

  /** The text of any printable value, wherever it stands, is read as that value and no further. */
  lemma {:induction false} ValueReadsBack(lim: Limits, v: Json, depth: nat, rest: string)
    requires Printable(lim, v, depth) && Follows(rest)
    ensures ParseValue(lim, Text(v) + rest, depth) == Got(v, rest)
    decreases v, 0
  {
    hide ItemsText, MembersText, Digits, ValueOf, Chars, Number, Quoted, Items, Members;
    TextStarts(v);
    NothingSkipped(Text(v), rest);
    var t := Text(v) + rest;
    match v {
      case Null => assert t[..4] == "null" && t[4..] == rest;
      case Bool(b) =>
        if b {
          assert t[..4] == "true" && t[4..] == rest;
        } else {
          assert t[..5] == "false" && t[5..] == rest;
        }
      case Int(i) =>
        NumberReadsBack(i, rest);
        NumberStarts(i);
      case Str(s) => QuotedReadsBack(s, rest);
      case Arr(items) => ArrayReadsBack(lim, items, depth, rest);
      case Obj(ms) => ObjectReadsBack(lim, ms, depth, rest);
    }
  }

  lemma NumberStarts(i: int)
    ensures ToDecimal(i) != "" && (ToDecimal(i)[0] == '-' || IsDigit(ToDecimal(i)[0]))
  {
    hide Digits, ValueOf;
    DigitsDenote(if i < 0 then -i else i);
    assert IsDigit(Digits(if i < 0 then -i else i)[0]);
  }

  lemma ArrayReadsBack(lim: Limits, items: seq<Json>, depth: nat, rest: string)
    requires |items| <= lim.maxArray && forall i | 0 <= i < |items| :: Printable(lim, items[i], depth + 1)
    ensures var t := Text(Arr(items)) + rest; t[0] == '[' && ParseArray(lim, t[1..], depth) == Got(Arr(items), rest)
    decreases items, |items| + 1
  {
    hide ItemsText, Items, Printable;
    var t := Text(Arr(items)) + rest;
    var u := ItemsText(items, 0) + ("]" + rest);
    Regroup("[" + ItemsText(items, 0), "]", rest);
    Regroup("[", ItemsText(items, 0), "]" + rest);
    assert t == "[" + u && t[1..] == u;
    if items == [] {
      EmptyTexts();
      assert u == "]" + rest && u[1..] == rest;
    } else {
      ItemsTextSplits(items, 0, "]" + rest);
      TextStarts(items[0]);
      assert items[..0] == [];
      ItemsReadBack(lim, items, 0, depth, rest);
    }
  }

  lemma EmptyTexts()
    ensures ItemsText([], 0) == "" && MembersText([], 0) == ""
  {
  }

  lemma ObjectReadsBack(lim: Limits, ms: seq<Member>, depth: nat, rest: string)
    requires |ms| <= lim.maxKeys && KeysAscend(ms)
    requires forall i | 0 <= i < |ms| :: ValidUtf8(ms[i].key) && Printable(lim, ms[i].value, depth + 1)
    ensures var t := Text(Obj(ms)) + rest; t[0] == '{' && ParseObject(lim, t[1..], depth) == Got(Obj(ms), rest)
    decreases ms, |ms| + 1
  {
    hide MembersText, Members, Printable, ValidUtf8, Quoted;
    var t := Text(Obj(ms)) + rest;
    var u := MembersText(ms, 0) + ("}" + rest);
    Regroup("{" + MembersText(ms, 0), "}", rest);
    Regroup("{", MembersText(ms, 0), "}" + rest);
    assert t == "{" + u && t[1..] == u;
    if ms == [] {
      EmptyTexts();
      assert u == "}" + rest && u[1..] == rest;
    } else {
      MembersTextSplits(ms, 0, "}" + rest);
      QuoteStarts(ms[0].key);
      assert ms[..0] == [];
      MembersReadBack(lim, ms, 0, depth, rest);
    }
  }

  lemma QuoteStarts(s: string)
    ensures Quoted(s) != "" && Quoted(s)[0] == '"'
  {
  }

  /** Parsing the canonical text of any value within the limits gives that value back. */
  lemma CanonicalRoundTrip(lim: Limits, v: Json)
    requires Printable(lim, v, 0) && |Text(v)| <= lim.maxBytes
    ensures Document(lim, Text(v)) == Some(v)
  {
    hide Text, ParseValue, Printable;
    TextStarts(v);
    NothingSkipped(Text(v), "");
    assert Text(v) + "" == Text(v);
    ValueReadsBack(lim, v, 0, "");
  }

  // ----- what is read is printable, and no longer written than read -----

  /** A character whole at the front of a string is whole at the front of any longer one. */
  lemma LeadsJoins(a: string, b: string)
    requires Leads(a)
    ensures var n := Extra(a[0]).value + 1; Leads(a + b) && (a + b)[0] == a[0] && (a + b)[n..] == a[n..] + b
  {
    var n := Extra(a[0]).value + 1;
    assert forall i | 0 <= i < n :: (a + b)[i] == a[i];
  }

  lemma {:induction false} Utf8Joins(a: string, b: string)
    requires ValidUtf8(a) && ValidUtf8(b)
    ensures ValidUtf8(a + b)
    decreases |a|
  {
    hide Leads, Extra;
    if a == "" {
      assert a + b == b;
    } else {
      WholeCharacter(a);
      LeadsJoins(a, b);
      Utf8Joins(a[Extra(a[0]).value + 1..], b);
    }
  }

  lemma {:induction false} EscapedJoins(a: string, b: string)
    ensures Escaped(a + b) == Escaped(a) + Escaped(b)
  {
    hide EscapeChar, Escaped;
    if a == "" {
      EscapedEnds(b);
      assert "" + b == b && "" + Escaped(b) == Escaped(b);
    } else {
      EscapedFront(a);
      EscapedFront(a + b);
      EscapedJoins(a[1..], b);
      assert (a + b)[1..] == a[1..] + b && (a + b)[0] == a[0];
      Regroup(EscapeChar(a[0]), Escaped(a[1..]), Escaped(b));
    }
  }

  lemma EscapedOne(c: char)
    ensures Escaped([c]) == EscapeChar(c) && |EscapeChar(c)| <= 6
    ensures c as int < 0x80 ==> ValidUtf8([c])
  {
    assert [c][1..] == "";
    EscapedEnds("");
    assert EscapeChar(c) + "" == EscapeChar(c);
  }

  /** An encoded code point is a whole character, written in no more than its escape's six bytes. */
  lemma Utf8IsWhole(cp: nat)
    requires cp < 0x110000
    ensures ValidUtf8(Utf8(cp)) && |Escaped(Utf8(cp))| <= 6
  {
    hide Escaped, EscapeChar;
    var s := Utf8(cp);
    if cp <= 0x7F {
      EscapedOne(s[0]);
    } else {
      var n := |s|;
      assert Extra(s[0]) == Some(n - 1) && forall i | 1 <= i < n :: Continuation(s[i]);
      assert s[n..] == "";
      RawIsItself(s, n);
      EscapedEnds("");
      assert s[..n] + "" == s;
    }
  }

  lemma EscapeIsWhole(t: string)
    requires Escape(t).Got?
    ensures ValidUtf8(Escape(t).value) && |Escaped(Escape(t).value)| <= 1 + |t| - |Escape(t).rest|
  {
    hide Escaped, Utf8, ValidUtf8;
    match t[0] {
      case 'u' => CodePointIsWhole(t[1..]);
      case _ =>
        EscapedOne(Escape(t).value[0]);
        ShortEscape(Escape(t).value[0]);
    }
  }

  lemma ShortEscape(c: char)
    ensures c as int >= 0x20 || c as int == 8 || c as int == 12 || c == '\n' || c == '\r' || c == '\t' ==>
            |EscapeChar(c)| <= 2
  {
  }

  lemma CodePointIsWhole(t: string)
    requires CodePoint(t).Got?
    ensures ValidUtf8(CodePoint(t).value) && |Escaped(CodePoint(t).value)| <= 6 && |CodePoint(t).rest| + 4 <= |t|
  {
    hide Escaped, Utf8, ValidUtf8;
    var cp := Hex4(t).value;
    if 0xD800 <= cp <= 0xDBFF {
      var low := Hex4(t[4..][2..]).value;
      Utf8IsWhole(0x10000 + (cp - 0xD800) * 0x400 + (low - 0xDC00));
    } else {
      Utf8IsWhole(cp);
    }
  }

  lemma RawChunk(t: string, n: nat)
    requires Leads(t) && n == Extra(t[0]).value + 1 && t[0] != '"' && t[0] != '\\' && t[0] as int >= 0x20
    ensures ValidUtf8(t[..n]) && |Escaped(t[..n])| == n
  {
    hide Escaped, EscapeChar;
    var c := t[..n];
    assert c[n..] == "";
    if n == 1 {
      assert c == [c[0]];
      EscapedOne(c[0]);
      PlainIsItself(c[0]);
    } else {
      assert forall i | 0 <= i < n :: c[i] == t[i];
      RawIsItself(c, n);
      EscapedEnds("");
      assert c[..n] + "" == c;
    }
  }

  /** Whatever string is read is made of whole characters, and its escape is no longer than what was read. */
  lemma {:induction false} CharsAreWhole(t: string)
    requires Chars(t).Got?
    ensures ValidUtf8(Chars(t).value) && |Escaped(Chars(t).value)| + 1 <= |t| - |Chars(t).rest|
    decreases |t|
  {
    hide Escaped, ValidUtf8, Escape;
    if t[0] == '"' {
      NoCharacters();
    } else if t[0] == '\\' {
      var e := Escape(t[1..]);
      EscapeIsWhole(t[1..]);
      CharsAreWhole(e.rest);
      Utf8Joins(e.value, Chars(e.rest).value);
      EscapedJoins(e.value, Chars(e.rest).value);
    } else {
      var n := Extra(t[0]).value + 1;
      RawChunk(t, n);
      CharsAreWhole(t[n..]);
      Utf8Joins(t[..n], Chars(t[n..]).value);
      EscapedJoins(t[..n], Chars(t[n..]).value);
    }
  }

  lemma NoCharacters()
    ensures ValidUtf8("") && Escaped("") == ""
  {
  }

  lemma {:induction false} RunIsDigits(t: string)
    ensures AllDigits(t[..DigitRun(t)])
    ensures forall i | 0 <= i < DigitRun(t) :: IsDigit(t[i])
  {
    if t != "" && IsDigit(t[0]) {
      RunIsDigits(t[1..]);
      forall i | 0 <= i < DigitRun(t) ensures IsDigit(t[i]) {
        if i > 0 {
          assert t[1..][i - 1] == t[i];
        }
      }
    }
  }

  /** A number read is in range and written no longer than it was read; only "-0" shrinks. */
  lemma NumberIsShort(t: string)
    requires Number(t).Got?
    ensures Number(t).value.Int? && IsInt64(Number(t).value.i)
            && |ToDecimal(Number(t).value.i)| <= |t| - |Number(t).rest|
  {
    hide ValueOf, Digits, DigitRun;
    var u := if t != "" && t[0] == '-' then t[1..] else t;
    var n := DigitRun(u);
    var rest := u[n..];
    var s := t[..|t| - |rest|];
    RunIsDigits(u);
    var body := u[..n];
    assert Body(s) == body by {
      if t[0] == '-' {
        assert s[0] == '-' && s[1..] == body;
      } else {
        assert s == body && s[0] == u[0];
      }
    }
    ParsedInRange(s);
    DigitsAreCanonical(body);
    CanonicalIsShort(s, body);
  }

  lemma ParsedInRange(s: string)
    requires Parsed(s).Some?
    ensures IsInt64(Parsed(s).value)
  {
    hide ValueOf, Unnoticed;
  }

  lemma {:induction false} ShorterDigits(a: nat, b: nat)
    requires a <= b
    ensures |Digits(a)| <= |Digits(b)|
  {
    if a >= 10 {
      ShorterDigits(a / 10, b / 10);
    } else if b >= 10 {
      ShorterDigits(0, b / 10);
    }
  }

  lemma CanonicalIsShort(s: string, body: string)
    requires Parsed(s).Some? && body == Body(s) && AllDigits(body) && Digits(ValueOf(body)) == body
    ensures |ToDecimal(Parsed(s).value)| <= |s|
  {
    hide ValueOf, Digits, Unnoticed;
    ShorterDigits(ValueOf(body) % WRAP, ValueOf(body));
  }

  // ----- containers weigh what was read -----

  function ItemWeight(): Json -> int {
    (x: Json) => |Text(x)| + 1
  }

  function MemberWeight(): Member -> int {
    (m: Member) => |Quoted(m.key)| + 1 + |Text(m.value)| + 1
  }

  lemma {:induction false} ItemsTextLength(items: seq<Json>, k: nat)
    requires k < |items|
    ensures |ItemsText(items, k)| + 1 == Sum(items[k..], ItemWeight())
    decreases |items| - k
  {
    hide Text, Sum;
    assert items[k..] == [items[k]] + items[k + 1..];
    SumConcat([items[k]], items[k + 1..], ItemWeight());
    SumSingleton(items[k], ItemWeight());
    SumEmpty(ItemWeight());
    if k + 1 < |items| {
      ItemsTextLength(items, k + 1);
    } else {
      assert items[k + 1..] == [];
    }
  }

  lemma {:induction false} MembersTextLength(ms: seq<Member>, k: nat)
    requires k < |ms|
    ensures |MembersText(ms, k)| + 1 == Sum(ms[k..], MemberWeight())
    decreases |ms| - k
  {
    hide Text, Sum, Quoted;
    assert ms[k..] == [ms[k]] + ms[k + 1..];
    SumConcat([ms[k]], ms[k + 1..], MemberWeight());
    SumSingleton(ms[k], MemberWeight());
    SumEmpty(MemberWeight());
    if k + 1 < |ms| {
      MembersTextLength(ms, k + 1);
    } else {
      assert ms[k + 1..] == [];
    }
  }

  lemma ContainerLength(items: seq<Json>, ms: seq<Member>)
    ensures |Text(Arr(items))| == if items == [] then 2 else 1 + Sum(items, ItemWeight())
    ensures |Text(Obj(ms))| == if ms == [] then 2 else 1 + Sum(ms, MemberWeight())
  {
    hide ItemsText, MembersText, Sum;
    EmptyTexts();
    if items != [] {
      ItemsTextLength(items, 0);
      assert items[0..] == items;
    }
    if ms != [] {
      MembersTextLength(ms, 0);
      assert ms[0..] == ms;
    }
  }

  lemma {:induction false} InsertWeighs(ms: seq<Member>, m: Member)
    ensures Sum(Insert(ms, m), MemberWeight()) == Sum(ms, MemberWeight()) + MemberWeight()(m)
  {
    hide Sum, MemberWeight;
    if ms == [] {
      SumSingleton(m, MemberWeight());
      SumEmpty(MemberWeight());
    } else {
      var init, last := ms[..|ms| - 1], ms[|ms| - 1];
      assert ms == init + [last];
      SumAppend(ms, m, MemberWeight());
      SumAppend(init, last, MemberWeight());
      if !Less(last.key, m.key) {
        InsertWeighs(init, m);
        SumAppend(Insert(init, m), last, MemberWeight());
      }
    }
  }

  ghost predicate AllPrintable(lim: Limits, items: seq<Json>, depth: nat) {
    forall i | 0 <= i < |items| :: Printable(lim, items[i], depth)
  }

  ghost predicate MembersPrintable(lim: Limits, ms: seq<Member>, depth: nat) {
    KeysAscend(ms) && forall i | 0 <= i < |ms| :: ValidUtf8(ms[i].key) && Printable(lim, ms[i].value, depth)
  }

  lemma InsertPrintable(lim: Limits, ms: seq<Member>, m: Member, depth: nat)
    requires MembersPrintable(lim, ms, depth) && ValidUtf8(m.key) && Printable(lim, m.value, depth)
             && !HasKey(ms, m.key)
    ensures MembersPrintable(lim, Insert(ms, m), depth) && |Insert(ms, m)| == |ms| + 1
  {
    hide Printable, ValidUtf8, Insert, KeysAscend;
    InsertAscends(ms, m);
    InsertHolds(ms, m);
    forall i | 0 <= i < |Insert(ms, m)|
      ensures ValidUtf8(Insert(ms, m)[i].key) && Printable(lim, Insert(ms, m)[i].value, depth)
    {
      assert Insert(ms, m)[i] in Insert(ms, m);
    }
  }

  lemma KeyIsShort(lim: Limits, t: string, acc: seq<Member>)
    requires Key(lim, t, acc).Got?
    ensures var key := Key(lim, t, acc).value;
            ValidUtf8(key) && !HasKey(acc, key) && |acc| < lim.maxKeys
                && |Quoted(key)| + 1 <= |t| - |Key(lim, t, acc).rest|
  {
    hide Chars, HasKey, Escaped, ValidUtf8;
    CharsAreWhole(Ws(t).value[1..]);
  }

  lemma {:induction false} ItemsArePrintable(lim: Limits, t: string, depth: nat, acc: seq<Json>)
    requires Items(lim, t, depth, acc).Got? && AllPrintable(lim, acc, depth + 1) && depth <= lim.maxDepth
    ensures var r := Items(lim, t, depth, acc);
            && r.value.Arr? && r.value.items != [] && Printable(lim, r.value, depth)
            && Sum(r.value.items, ItemWeight()) <= Sum(acc, ItemWeight()) + |t| - |r.rest|
    decreases |t|, 2
  {
    hide ParseValue, Sum, Text;
    var got := ParseValue(lim, t, depth + 1);
    ValueIsPrintable(lim, t, depth + 1);
    var now := acc + [got.value];
    SumAppend(acc, got.value, ItemWeight());
    var q := Ws(got.rest).value;
    if q[0] == ',' {
      ItemsArePrintable(lim, q[1..], depth, now);
    }
  }

  lemma {:induction false} MembersArePrintable(lim: Limits, t: string, depth: nat, acc: seq<Member>)
    requires Members(lim, t, depth, acc).Got? && MembersPrintable(lim, acc, depth + 1) && depth <= lim.maxDepth
    ensures var r := Members(lim, t, depth, acc);
            && r.value.Obj? && r.value.members != [] && Printable(lim, r.value, depth)
            && Sum(r.value.members, MemberWeight()) <= Sum(acc, MemberWeight()) + |t| - |r.rest|
    decreases |t|, 2
  {
    hide ParseValue, Sum, Text, Key, Quoted, Insert, HasKey, KeysAscend, ValidUtf8;
    var key := Key(lim, t, acc);
    KeyIsShort(lim, t, acc);
    var got := ParseValue(lim, key.rest, depth + 1);
    ValueIsPrintable(lim, key.rest, depth + 1);
    var m := Member(key.value, got.value);
    InsertPrintable(lim, acc, m, depth + 1);
    InsertWeighs(acc, m);
    var q := Ws(got.rest).value;
    if q[0] == ',' {
      MembersArePrintable(lim, q[1..], depth, Insert(acc, m));
    }
  }

  /** Everything the reader returns is within the limits it enforces, and canonical text for it is no
      longer than the text it came from. */
  lemma {:induction false} ValueIsPrintable(lim: Limits, t: string, depth: nat)
    requires ParseValue(lim, t, depth).Got?
    ensures Printable(lim, ParseValue(lim, t, depth).value, depth)
    ensures |Text(ParseValue(lim, t, depth).value)| <= |t| - |ParseValue(lim, t, depth).rest|
    decreases |t|, 1
  {
    hide Chars, Number, Items, Members, ItemsText, MembersText, Escaped, ValidUtf8, Digits, ValueOf, Sum;
    var u := Ws(t).value;
    if u[0] == '{' {
      var v := Ws(u[1..]).value;
      if v[0] == '}' {
        ContainerLength([], []);
      } else {
        MembersArePrintable(lim, v, depth, []);
        SumEmpty(MemberWeight());
        ContainerLength([], Members(lim, v, depth, []).value.members);
      }
    } else if u[0] == '[' {
      var v := Ws(u[1..]).value;
      if v[0] == ']' {
        ContainerLength([], []);
      } else {
        ItemsArePrintable(lim, v, depth, []);
        SumEmpty(ItemWeight());
        ContainerLength(Items(lim, v, depth, []).value.items, []);
      }
    } else if u[0] == '"' {
      CharsAreWhole(u[1..]);
    } else if u[0] == '-' || IsDigit(u[0]) {
      NumberIsShort(u);
    }
  }

  /** Reading and writing settle at once: the canonical text of anything read is read back as the same
      value, so writing it again gives the same text. */
  lemma ReserialisingSettles(lim: Limits, t: string)
    requires Document(lim, t).Some?
    ensures Document(lim, Text(Document(lim, t).value)) == Document(lim, t)
  {
    hide ParseValue, Text, Printable;
    var u := Ws(WithoutBom(t)).value;
    ValueIsPrintable(lim, u, 0);
    CanonicalRoundTrip(lim, ParseValue(lim, u, 0).value);
  }
}
