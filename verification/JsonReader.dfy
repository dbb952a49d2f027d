/** The recursive-descent reader: one cursor over the text, proved against the functions of JsonText. */
module JsonReader {
  import opened Catalog
  import opened Decimal
  import opened Json
  import opened JsonText

  function Prepend(s: string, p: Parse<string>): Parse<string> {
    match p
    case Failed => Failed
    case Got(v, rest) => Got(s + v, rest)
  }

  lemma Suffix(t: string, i: nat, k: nat)
    requires i + k <= |t|
    ensures t[i..][k..] == t[i + k..] && |t[i..]| == |t| - i
    ensures i < |t| ==> t[i..][0] == t[i]
  {
  }

  class Parser {
    const text: string
    const lim: Limits
    var pos: nat

    constructor (text: string, lim: Limits)
      ensures this.text == text && this.lim == lim && pos == 0
    {
      this.text := text;
      this.lim := lim;
      pos := 0;
    }

    /** What is still to be read. */
    ghost function Left(): string
      reads this
      requires pos <= |text|
    {
      text[pos..]
    }

    /** The cursor and the result are where a parse says they should be. */
    ghost predicate Reads<T>(p: Parse<T>, v: Option<T>)
      reads this
    {
      match p
      case Failed => v.None?
      case Got(x, rest) => v == Some(x) && pos <= |text| && Left() == rest
    }

    method SkipWs() returns (ok: bool)
      requires pos <= |text|
      modifies this
      ensures ok <==> Ws(old(Left())).Some?
      ensures pos <= |text| && (ok ==> Left() == Ws(old(Left())).value)
    {
      while pos < |text|
        invariant pos <= |text| && Ws(Left()) == Ws(old(Left()))
        decreases |text| - pos
      {
        Suffix(text, pos, 1);
        var c := text[pos];
        if IsWs(c) {
          pos := pos + 1;
        } else {
          return c != '/';
        }
      }
      ok := true;
    }

    method ReadHex4() returns (v: Option<nat>)
      requires pos <= |text|
      modifies this
      ensures v == Hex4(old(Left()))
      ensures v.Some? ==> old(pos) + 4 <= |text| && pos == old(pos) + 4 && Left() == old(Left())[4..]
    {
      if pos + 4 > |text| {
        return None;
      }
      ghost var t := Left();
      Suffix(text, pos, 4);
      var cp := 0;
      for i := 0 to 4
        invariant pos == old(pos) && Hex4Upto(t, i, cp)
      {
        assert t[i] == text[pos + i];
        var d := HexDigit(text[pos + i]);
        if d.None? {
          return None;
        }
        cp := cp * 16 + d.value;
      }
      pos := pos + 4;
      v := Some(cp);
    }

    /** One escape, after its backslash. */
    method ReadEscape() returns (c: Option<string>)
      requires pos <= |text|
      modifies this
      ensures Reads(Escape(old(Left())), c)
    {
      if pos == |text| {
        return None;
      }
      Suffix(text, pos, 1);
      var e := text[pos];
      pos := pos + 1;
      match e {
        case '"' => c := Some("\"");
        case '\\' => c := Some("\\");
        case '/' => c := Some("/");
        case 'b' => c := Some([Byte(8)]);
        case 'f' => c := Some([Byte(12)]);
        case 'n' => c := Some("\n");
        case 'r' => c := Some("\r");
        case 't' => c := Some("\t");
        case 'u' => c := ReadCodePoint();
        case _ => c := None;
      }
    }

    method ReadCodePoint() returns (c: Option<string>)
      requires pos <= |text|
      modifies this
      ensures Reads(CodePoint(old(Left())), c)
    {
      hide Utf8;
      var high := ReadHex4();
      if high.None? {
        return None;
      }
      var cp := high.value;
      if 0xD800 <= cp <= 0xDBFF {
        if pos + 2 > |text| || text[pos] != '\\' || text[pos + 1] != 'u' {
          return None;
        }
        ghost var rest := Left();
        Suffix(text, pos, 2);
        pos := pos + 2;
        var low := ReadHex4();
        if low.None? || !(0xDC00 <= low.value <= 0xDFFF) {
          return None;
        }
        assert Left() == rest[6..];
        return Some(Utf8(0x10000 + (cp - 0xD800) * 0x400 + (low.value - 0xDC00)));
      }
      if 0xDC00 <= cp <= 0xDFFF {
        return None;
      }
      c := Some(Utf8(cp));
    }

    /** Copies a character, checking its continuation bytes. */
    method ReadRaw() returns (n: nat)
      requires pos < |text|
      ensures n > 0 <==> Leads(Left())
      ensures n > 0 ==> n == Extra(text[pos]).value + 1 <= |text| - pos
    {
      Suffix(text, pos, 0);
      var extra := Extra(text[pos]);
      if extra.None? || pos + extra.value >= |text| {
        return 0;
      }
      for i := 1 to extra.value + 1
        invariant forall k | 1 <= k < i :: Continuation(Left()[k])
      {
        assert Left()[i] == text[pos + i];
        if !Continuation(text[pos + i]) {
          return 0;
        }
      }
      n := extra.value + 1;
    }

    /** One character of a string, escaped or raw. */
    method ReadPiece() returns (piece: Option<string>)
      requires pos < |text| && text[pos] != '"'
      modifies this
      ensures pos <= |text|
              && (piece.Some? ==> old(pos) < pos && Chars(old(Left())) == Prepend(piece.value, Chars(Left())))
      ensures piece.None? ==> Chars(old(Left())).Failed?
    {
      hide Escape, Leads, Extra, Chars;
      ghost var t := Left();
      Suffix(text, pos, 1);
      CharsSplit(t);
      var c := text[pos];
      if c == '\\' {
        pos := pos + 1;
        piece := ReadEscape();
        pos := if pos <= |text| then pos else |text|;
      } else {
        var n := ReadRaw();
        if c as int < 0x20 || n == 0 {
          return None;
        }
        Suffix(text, pos, n);
        assert t[..n] == text[pos..pos + n];
        piece := Some(text[pos..pos + n]);
        pos := pos + n;
      }
    }

    /** A string, from its opening quote. */
    method ReadString() returns (s: Option<string>)
      requires pos < |text| && text[pos] == '"'
      modifies this
      ensures Reads(Chars(old(Left())[1..]), s)
    {
      hide Chars, Prepend;
      Suffix(text, pos, 1);
      pos := pos + 1;
      ghost var start := Left();
      var out := "";
      PrependNothing(Chars(start));
      while pos < |text| && text[pos] != '"'
        invariant pos <= |text| && Chars(start) == Prepend(out, Chars(Left()))
        decreases |text| - pos
      {
        var piece := ReadPiece();
        if piece.None? {
          PrependFailed(out);
          return None;
        }
        PrependTwice(out, piece.value, Chars(Left()));
        out := out + piece.value;
      }
      CharsEnd(Left());
      PrependFailed(out);
      if pos == |text| {
        return None;
      }
      Suffix(text, pos, 1);
      PrependGot(out, Left()[1..]);
      pos := pos + 1;
      s := Some(out);
    }

    method ReadNumber() returns (v: Option<Json>)
      requires pos < |text|
      modifies this
      ensures Reads(Number(old(Left())), v)
    {
      hide ValueOf, Parsed, DigitRun, Number;
      ghost var t := Left();
      var start := pos;
      Suffix(text, pos, 1);
      if text[pos] == '-' {
        pos := pos + 1;
      }
      ghost var u := Left();
      var first := pos;
      SkipDigits();
      NumberIs(t, u, DigitRun(u), Left());
      if pos == first {
        return None;
      }
      Suffix(text, first, 0);
      if text[first] == '0' && pos > first + 1 {
        return None;
      }
      if pos < |text| && (text[pos] == '.' || text[pos] == 'e' || text[pos] == 'E') {
        return None;
      }
      assert text[start..pos] == t[..|t| - |Left()|];
      var parsed := ParseDecimal(text[start..pos]);
      v := if parsed.None? then None else Some(Int(parsed.value));
    }

    method SkipDigits()
      requires pos <= |text|
      modifies this
      ensures pos == old(pos) + DigitRun(old(Left())) <= |text| && Left() == old(Left())[DigitRun(old(Left()))..]
    {
      ghost var u, first := Left(), pos;
      while pos < |text| && IsDigit(text[pos])
        invariant first <= pos <= |text| && DigitRun(u) == (pos - first) + DigitRun(Left())
      {
        Suffix(text, pos, 1);
        pos := pos + 1;
      }
      Suffix(text, first, pos - first);
      if pos < |text| {
        Suffix(text, pos, 0);
      }
    }

    method ReadLiteral(word: string, value: Json) returns (v: Option<Json>)
      requires pos <= |text| && word != ""
      modifies this
      ensures Reads(Literal(old(Left()), word, value), v)
    {
      if pos + |word| > |text| || text[pos..pos + |word|] != word {
        assert |word| <= |Left()| ==> Left()[..|word|] == text[pos..pos + |word|];
        return None;
      }
      assert Left()[..|word|] == text[pos..pos + |word|];
      Suffix(text, pos, |word|);
      pos := pos + |word|;
      v := Some(value);
    }

    method ReadValue(depth: nat) returns (v: Option<Json>)
      requires pos <= |text|
      modifies this
      ensures Reads(ParseValue(lim, old(Left()), depth), v)
      decreases |text| - pos, 1
    {
      hide Chars, Number, Items, Members, ParseArray, ParseObject;
      if depth > lim.maxDepth {
        return None;
      }
      ghost var t := Left();
      var ok := SkipWs();
      if !ok || pos == |text| {
        return None;
      }
      ghost var u := Left();
      Suffix(text, pos, 1);
      var c := text[pos];
      if c == '{' {
        pos := pos + 1;
        v := ReadObject(depth);
      } else if c == '[' {
        pos := pos + 1;
        v := ReadArray(depth);
      } else if c == '"' {
        var s := ReadString();
        v := if s.None? then None else Some(Str(s.value));
      } else if c == 't' {
        v := ReadLiteral("true", Bool(true));
      } else if c == 'f' {
        v := ReadLiteral("false", Bool(false));
      } else if c == 'n' {
        v := ReadLiteral("null", Null);
      } else if c == '-' || IsDigit(c) {
        v := ReadNumber();
      } else {
        v := None;
      }
    }

    /** One item of an array and the character after it. */
    method ReadItem(depth: nat, items: seq<Json>) returns (item: Option<Json>, c: char)
      requires pos <= |text|
      modifies this
      ensures pos <= |text| && (item.Some? ==> old(pos) < pos)
      ensures item.None? ==> Items(lim, old(Left()), depth, items).Failed?
      ensures item.Some? ==>
                Items(lim, old(Left()), depth, items)
                == (if c == ']' then Got(Arr(items + [item.value]), Left())
                    else if c == ',' then Items(lim, Left(), depth, items + [item.value])
                    else Failed)
      decreases |text| - pos, 2
    {
      hide ParseValue, Items;
      ItemsUnfold(lim, Left(), depth, items);
      c := ' ';
      if |items| >= lim.maxArray {
        return None, c;
      }
      item := ReadValue(depth + 1);
      if item.None? {
        pos := if pos <= |text| then pos else |text|;
        return;
      }
      var ok := SkipWs();
      if !ok || pos == |text| {
        return None, c;
      }
      Suffix(text, pos, 1);
      c := text[pos];
      pos := pos + 1;
    }

    /** An array, after its bracket. */
    method ReadArray(depth: nat) returns (v: Option<Json>)
      requires pos <= |text|
      modifies this
      ensures Reads(ParseArray(lim, old(Left()), depth), v)
      decreases |text| - pos, 3
    {
      hide ParseValue, Items;
      var ok := SkipWs();
      if !ok || pos == |text| {
        return None;
      }
      Suffix(text, pos, 1);
      if text[pos] == ']' {
        pos := pos + 1;
        return Some(Arr([]));
      }
      var items: seq<Json> := [];
      ghost var u := Left();
      while true
        invariant old(pos) <= pos <= |text| && Items(lim, u, depth, []) == Items(lim, Left(), depth, items)
        decreases |text| - pos
      {
        var item, c := ReadItem(depth, items);
        if item.None? {
          return None;
        }
        items := items + [item.value];
        if c == ']' {
          return Some(Arr(items));
        }
        if c != ',' {
          return None;
        }
      }
    }

    method ReadKey(acc: seq<Member>) returns (key: Option<string>)
      requires pos <= |text|
      modifies this
      ensures Reads(Key(lim, old(Left()), acc), key)
    {
      hide Chars;
      var ok := SkipWs();
      if !ok || pos == |text| || text[pos] != '"' {
        return None;
      }
      Suffix(text, pos, 1);
      key := ReadString();
      if key.None? || HasKey(acc, key.value) || |acc| >= lim.maxKeys {
        return None;
      }
      ok := SkipWs();
      if !ok || pos == |text| || text[pos] != ':' {
        return None;
      }
      Suffix(text, pos, 1);
      pos := pos + 1;
    }

    /** One member of an object and the character after it. */
    method ReadMember(depth: nat, members: seq<Member>) returns (now: Option<seq<Member>>, c: char)
      requires pos <= |text|
      modifies this
      ensures pos <= |text| && (now.Some? ==> old(pos) < pos)
      ensures now.None? ==> Members(lim, old(Left()), depth, members).Failed?
      ensures now.Some? ==>
                Members(lim, old(Left()), depth, members)
                == (if c == '}' then Got(Obj(now.value), Left())
                    else if c == ',' then Members(lim, Left(), depth, now.value)
                    else Failed)
      decreases |text| - pos, 2
    {
      hide ParseValue, Key, Insert, Members;
      MembersUnfold(lim, Left(), depth, members);
      c := ' ';
      var key := ReadKey(members);
      if key.None? {
        pos := if pos <= |text| then pos else |text|;
        return None, c;
      }
      var value := ReadValue(depth + 1);
      if value.None? {
        pos := if pos <= |text| then pos else |text|;
        return None, c;
      }
      var ok := SkipWs();
      if !ok || pos == |text| {
        return None, c;
      }
      Suffix(text, pos, 1);
      c := text[pos];
      pos := pos + 1;
      now := Some(Insert(members, Member(key.value, value.value)));
    }

    /** An object, after its brace. */
    method ReadObject(depth: nat) returns (v: Option<Json>)
      requires pos <= |text|
      modifies this
      ensures Reads(ParseObject(lim, old(Left()), depth), v)
      decreases |text| - pos, 3
    {
      hide ParseValue, Members;
      var ok := SkipWs();
      if !ok || pos == |text| {
        return None;
      }
      Suffix(text, pos, 1);
      if text[pos] == '}' {
        pos := pos + 1;
        return Some(Obj([]));
      }
      var members: seq<Member> := [];
      ghost var u := Left();
      while true
        invariant old(pos) <= pos <= |text| && Members(lim, u, depth, []) == Members(lim, Left(), depth, members)
        decreases |text| - pos
      {
        var now, c := ReadMember(depth, members);
        if now.None? {
          return None;
        }
        members := now.value;
        if c == '}' {
          return Some(Obj(members));
        }
        if c != ',' {
          return None;
        }
      }
    }

    method Run() returns (v: Option<Json>)
      requires pos == 0
      modifies this
      ensures v == Document(lim, text)
    {
      hide ParseValue;
      if |text| > lim.maxBytes {
        return None;
      }
      if |text| >= 3 && text[0] as int == 0xEF && text[1] as int == 0xBB && text[2] as int == 0xBF {
        pos := 3;
      }
      assert Left() == WithoutBom(text);
      var ok := SkipWs();
      if !ok {
        return None;
      }
      v := ReadValue(0);
      if v.None? {
        return;
      }
      ok := SkipWs();
      if !ok || pos != |text| {
        return None;
      }
    }
  }

  /** The hex digits read so far. */
  ghost predicate Hex4Upto(t: string, i: nat, cp: nat)
    requires i <= 4 <= |t|
  {
    && (forall k | 0 <= k < i :: HexDigit(t[k]).Some?)
    && cp == (if i == 0 then 0
              else if i == 1 then HexDigit(t[0]).value
              else if i == 2 then HexDigit(t[0]).value * 16 + HexDigit(t[1]).value
              else if i == 3 then (HexDigit(t[0]).value * 16 + HexDigit(t[1]).value) * 16 + HexDigit(t[2]).value
              else ((HexDigit(t[0]).value * 16 + HexDigit(t[1]).value) * 16 + HexDigit(t[2]).value) * 16
                   + HexDigit(t[3]).value)
  }

  /** How a string's text continues when it has not ended. */
  lemma CharsSplit(t: string)
    requires t != "" && t[0] != '"'
    ensures t[0] == '\\' ==>
            Chars(t) == match Escape(t[1..]) { case Failed => Failed case Got(c, rest) => Prepend(c, Chars(rest)) }
    ensures t[0] != '\\' ==>
              Chars(t) == if t[0] as int < 0x20 || !Leads(t) then Failed else Prepend(t[..Extra(t[0]).value + 1],
                  Chars(t[Extra(t[0]).value + 1..]))
  {
    hide Escape, Leads, Extra;
  }

  lemma CharsEnd(t: string)
    ensures t == "" ==> Chars(t).Failed?
    ensures t != "" && t[0] == '"' ==> Chars(t) == Got("", t[1..])
  {
  }

  lemma PrependFailed(s: string)
    ensures Prepend(s, Failed).Failed?
  {
  }

  lemma PrependGot(s: string, rest: string)
    ensures Prepend(s, Got("", rest)) == Got(s, rest)
  {
    assert s + "" == s;
  }

  lemma NumberIs(t: string, u: string, n: nat, rest: string)
    requires u == (if t != "" && t[0] == '-' then t[1..] else t) && n == DigitRun(u) && rest == u[n..]
    ensures n == 0 || (u[0] == '0' && n > 1) || (rest != "" && (rest[0] == '.' || rest[0] == 'e' || rest[0] == 'E')) ==>
            Number(t).Failed?
    ensures !(n == 0 || (u[0] == '0' && n > 1)
            || (rest != "" && (rest[0] == '.' || rest[0] == 'e' || rest[0] == 'E'))) ==>
              Number(t) == match Parsed(t[..|t| - |rest|]) { case None => Failed case Some(v) => Got(Int(v), rest) }
  {
    hide Parsed, DigitRun;
  }

  lemma ItemsUnfold(lim: Limits, t: string, depth: nat, acc: seq<Json>)
    ensures |acc| >= lim.maxArray ==> Items(lim, t, depth, acc).Failed?
    ensures |acc| < lim.maxArray ==>
              Items(lim, t, depth, acc) ==
                match ParseValue(lim, t, depth + 1) {
                  case Failed => Failed
                  case Got(v, r) =>
                    var q := Ws(r);
                    if q.None? || q.value == "" then Failed
                    else if q.value[0] == ']' then Got(Arr(acc + [v]), q.value[1..])
                    else if q.value[0] == ',' then Items(lim, q.value[1..], depth, acc + [v])
                    else Failed
                }
  {
    hide ParseValue;
  }

  lemma MembersUnfold(lim: Limits, t: string, depth: nat, acc: seq<Member>)
    ensures Members(lim, t, depth, acc) ==
              match Key(lim, t, acc) {
                case Failed => Failed
                case Got(key, r) =>
                  match ParseValue(lim, r, depth + 1) {
                    case Failed => Failed
                    case Got(v, r') =>
                      var q, now := Ws(r'), Insert(acc, Member(key, v));
                      if q.None? || q.value == "" then Failed
                      else if q.value[0] == '}' then Got(Obj(now), q.value[1..])
                      else if q.value[0] == ',' then Members(lim, q.value[1..], depth, now)
                      else Failed
                  }
              }
  {
    hide ParseValue, Key, Insert;
  }

  lemma PrependNothing(p: Parse<string>)
    ensures Prepend("", p) == p
  {
    if p.Got? {
      assert "" + p.value == p.value;
    }
  }

  lemma PrependTwice(a: string, b: string, p: Parse<string>)
    ensures Prepend(a, Prepend(b, p)) == Prepend(a + b, p)
  {
    if p.Got? {
      Regroup(a, b, p.value);
    }
  }

  method ParseJson(text: string, lim: Limits) returns (v: Option<Json>)
    ensures v == Document(lim, text)
  {
    var p := new Parser(text, lim);
    v := p.Run();
  }
}
