/** What the strict reader accepts, as functions of the text still to be read. */
module JsonText {
  import opened Units
  import opened Catalog
  import opened Decimal
  import opened Json

  datatype Parse<+T> = Got(value: T, rest: string) | Failed

  // ----- white space -----

  predicate IsWs(c: char) {
    c == ' ' || c == '\t' || c == '\n' || c == '\r'
  }

  /** White space skipped; comments are refused. */
  function Ws(t: string): (r: Option<string>)
    ensures r.Some? ==> |r.value| <= |t|
  {
    if t == "" then Some("")
    else if IsWs(t[0]) then Ws(t[1..])
    else if t[0] == '/' then None
    else Some(t)
  }

  // ----- strings -----

  function HexDigit(c: char): Option<nat> {
    if '0' <= c <= '9' then Some(c as int - '0' as int)
    else if 'a' <= c <= 'f' then Some(c as int - 'a' as int + 10)
    else if 'A' <= c <= 'F' then Some(c as int - 'A' as int + 10)
    else None
  }

  function Hex4(t: string): (r: Option<nat>)
    ensures r.Some? ==> |t| >= 4 && r.value < 0x10000
  {
    if |t| < 4 || HexDigit(t[0]).None? || HexDigit(t[1]).None? || HexDigit(t[2]).None? || HexDigit(t[3]).None? then None
    else
      Some(((HexDigit(t[0]).value * 16 + HexDigit(t[1]).value) * 16 + HexDigit(t[2]).value) * 16
           + HexDigit(t[3]).value)
  }

  function Byte(b: nat): char
    requires b < 0x100
  {
    b as char
  }

  function Utf8(cp: nat): string
    requires cp < 0x110000
  {
    if cp <= 0x7F then [Byte(cp)]
    else if cp <= 0x7FF then [Byte(0xC0 + cp / 0x40), Byte(0x80 + cp % 0x40)]
    else if cp <= 0xFFFF then [Byte(0xE0 + cp / 0x1000), Byte(0x80 + cp / 0x40 % 0x40), Byte(0x80 + cp % 0x40)]
    else [Byte(0xF0 + cp / 0x40000), Byte(0x80 + cp / 0x1000 % 0x40), Byte(0x80 + cp / 0x40 % 0x40),
        Byte(0x80 + cp % 0x40)]
  }

  /** How many continuation bytes a lead byte announces. */
  function Extra(c: char): Option<nat> {
    if c as int < 0x80 then Some(0)
    else if 0xC0 <= c as int < 0xE0 then Some(1)
    else if 0xE0 <= c as int < 0xF0 then Some(2)
    else if 0xF0 <= c as int < 0xF8 then Some(3)
    else None
  }

  predicate Continuation(c: char) {
    0x80 <= c as int < 0xC0
  }

  /** A whole character at the front of the text, as far as the reader checks. */
  predicate Leads(t: string) {
    t != "" && Extra(t[0]).Some? && Extra(t[0]).value < |t| && forall i | 1 <= i <= Extra(t[0]).value ::
        Continuation(t[i])
  }

  /** A string made of whole characters throughout. */
  predicate ValidUtf8(s: string) {
    s == "" || (Leads(s) && ValidUtf8(s[Extra(s[0]).value + 1..]))
  }

  /** The character an escape stands for, after its backslash. */
  function Escape(t: string): (r: Parse<string>)
    ensures r.Got? ==> |r.rest| < |t|
  {
    if t == "" then Failed
    else match t[0]
      case '"' => Got("\"", t[1..])
      case '\\' => Got("\\", t[1..])
      case '/' => Got("/", t[1..])
      case 'b' => Got([Byte(8)], t[1..])
      case 'f' => Got([Byte(12)], t[1..])
      case 'n' => Got("\n", t[1..])
      case 'r' => Got("\r", t[1..])
      case 't' => Got("\t", t[1..])
      case 'u' => CodePoint(t[1..])
      case _ => Failed
  }

  /** Four hex digits, or a surrogate pair of them. */
  function CodePoint(t: string): (r: Parse<string>)
    ensures r.Got? ==> |r.rest| < |t|
  {
    if Hex4(t).None? then Failed
    else
      var cp, rest := Hex4(t).value, t[4..];
      if 0xD800 <= cp <= 0xDBFF then
        if |rest| < 2 || rest[0] != '\\' || rest[1] != 'u' || Hex4(rest[2..]).None? then Failed
        else
          var low := Hex4(rest[2..]).value;
          if 0xDC00 <= low <= 0xDFFF then Got(Utf8(0x10000 + (cp - 0xD800) * 0x400 + (low - 0xDC00)), rest[6..])
             else Failed
      else if 0xDC00 <= cp <= 0xDFFF then Failed
      else Got(Utf8(cp), rest)
  }

  /** The rest of a string, through its closing quote. */
  function Chars(t: string): (r: Parse<string>)
    decreases |t|
    ensures r.Got? ==> |r.rest| < |t|
  {
    if t == "" then Failed
    else if t[0] == '"' then Got("", t[1..])
    else if t[0] == '\\' then
      match Escape(t[1..])
      case Failed => Failed
      case Got(c, rest) =>
        (match Chars(rest)
         case Failed => Failed
         case Got(s, end) => Got(c + s, end))
    else if t[0] as int < 0x20 || !Leads(t) then Failed
    else
      var n := Extra(t[0]).value + 1;
      match Chars(t[n..])
      case Failed => Failed
      case Got(s, end) => Got(t[..n] + s, end)
  }

  // ----- numbers -----

  function DigitRun(t: string): (n: nat)
    ensures n <= |t|
  {
    if t != "" && IsDigit(t[0]) then 1 + DigitRun(t[1..]) else 0
  }

  /** An integer without leading zeros, fraction or exponent. */
  function Number(t: string): (r: Parse<Json>)
    ensures r.Got? ==> |r.rest| < |t|
  {
    var u := if t != "" && t[0] == '-' then t[1..] else t;
    var n := DigitRun(u);
    if n == 0 || (u[0] == '0' && n > 1) then Failed else NumberBefore(t, u[n..])
  }

  /** The number in front of a rest of the text, which may not go on as a fraction or an exponent. */
  function NumberBefore(t: string, rest: string): (r: Parse<Json>)
    requires |rest| < |t|
    ensures r.Got? ==> r.rest == rest
  {
    if rest != "" && (rest[0] == '.' || rest[0] == 'e' || rest[0] == 'E') then Failed
    else
      match Parsed(t[..|t| - |rest|])
      case None => Failed
      case Some(v) => Got(Int(v), rest)
  }

  // ----- values -----

  function Literal(t: string, word: string, v: Json): (r: Parse<Json>)
    requires word != ""
    ensures r.Got? ==> |r.rest| < |t|
  {
    if |word| <= |t| && t[..|word|] == word then Got(v, t[|word|..]) else Failed
  }

  function ParseValue(lim: Limits, t: string, depth: nat): (r: Parse<Json>)
    decreases |t|, 1
    ensures r.Got? ==> |r.rest| < |t|
  {
    if depth > lim.maxDepth then Failed
    else match Ws(t)
      case None => Failed
      case Some(u) =>
        if u == "" then Failed
        else if u[0] == '{' then ParseObject(lim, u[1..], depth)
        else if u[0] == '[' then ParseArray(lim, u[1..], depth)
        else if u[0] == '"' then
          (match Chars(u[1..])
           case Failed => Failed
           case Got(s, rest) => Got(Str(s), rest))
        else if u[0] == 't' then Literal(u, "true", Bool(true))
        else if u[0] == 'f' then Literal(u, "false", Bool(false))
        else if u[0] == 'n' then Literal(u, "null", Null)
        else if u[0] == '-' || IsDigit(u[0]) then Number(u)
        else Failed
  }

  function ParseArray(lim: Limits, t: string, depth: nat): (r: Parse<Json>)
    decreases |t|, 3
    ensures r.Got? ==> |r.rest| < |t|
  {
    match Ws(t)
    case None => Failed
    case Some(u) =>
      if u == "" then Failed
      else if u[0] == ']' then Got(Arr([]), u[1..])
      else Items(lim, u, depth, [])
  }

  function Items(lim: Limits, t: string, depth: nat, acc: seq<Json>): (r: Parse<Json>)
    decreases |t|, 2
    ensures r.Got? ==> |r.rest| < |t|
  {
    if |acc| >= lim.maxArray then Failed
    else match ParseValue(lim, t, depth + 1)
      case Failed => Failed
      case Got(v, r) =>
        match Ws(r)
        case None => Failed
        case Some(q) =>
          if q == "" then Failed
          else if q[0] == ']' then Got(Arr(acc + [v]), q[1..])
          else if q[0] == ',' then Items(lim, q[1..], depth, acc + [v])
          else Failed
  }

  function ParseObject(lim: Limits, t: string, depth: nat): (r: Parse<Json>)
    decreases |t|, 3
    ensures r.Got? ==> |r.rest| < |t|
  {
    match Ws(t)
    case None => Failed
    case Some(u) =>
      if u == "" then Failed
      else if u[0] == '}' then Got(Obj([]), u[1..])
      else Members(lim, u, depth, [])
  }

  /** A key and what follows it, up to its value. */
  function Key(lim: Limits, t: string, acc: seq<Member>): (r: Parse<string>)
    ensures r.Got? ==> |r.rest| < |t|
  {
    match Ws(t)
    case None => Failed
    case Some(u) =>
      if u == "" || u[0] != '"' then Failed
      else match Chars(u[1..])
        case Failed => Failed
        case Got(key, r) =>
          if HasKey(acc, key) || |acc| >= lim.maxKeys then Failed
          else match Ws(r)
            case None => Failed
            case Some(q) => if q == "" || q[0] != ':' then Failed else Got(key, q[1..])
  }

  function Members(lim: Limits, t: string, depth: nat, acc: seq<Member>): (r: Parse<Json>)
    decreases |t|, 2
    ensures r.Got? ==> |r.rest| < |t|
  {
    match Key(lim, t, acc)
    case Failed => Failed
    case Got(key, r) =>
      match ParseValue(lim, r, depth + 1)
      case Failed => Failed
      case Got(v, r') =>
        match Ws(r')
        case None => Failed
        case Some(q) =>
          var now := Insert(acc, Member(key, v));
          if q == "" then Failed
          else if q[0] == '}' then Got(Obj(now), q[1..])
          else if q[0] == ',' then Members(lim, q[1..], depth, now)
          else Failed
  }

  function WithoutBom(t: string): string {
    if |t| >= 3 && t[0] as int == 0xEF && t[1] as int == 0xBB && t[2] as int == 0xBF then t[3..] else t
  }

  /** A whole document: one value and nothing after it. */
  function Document(lim: Limits, t: string): Option<Json> {
    if |t| > lim.maxBytes then None
    else match Ws(WithoutBom(t))
      case None => None
      case Some(u) =>
        match ParseValue(lim, u, 0)
        case Failed => None
        case Got(v, rest) => if Ws(rest) == Some("") then Some(v) else None
  }

  // ----- what can be written and read back -----

  /** Integers in range, strings of whole characters, keys in order, and nothing past the limits. */
  ghost predicate Printable(lim: Limits, v: Json, depth: nat)
    decreases v
  {
    && depth <= lim.maxDepth
    && match v
       case Int(i) => IsInt64(i)
       case Str(s) => ValidUtf8(s)
       case Arr(items) => |items| <= lim.maxArray && forall k | 0 <= k < |items| :: Printable(lim, items[k], depth + 1)
       case Obj(ms) => |ms| <= lim.maxKeys && KeysAscend(ms) && forall k | 0 <= k < |ms| ::
            ValidUtf8(ms[k].key) && Printable(lim, ms[k].value, depth + 1)
       case _ => true
  }

  lemma HexReadsBack(d: nat)
    requires d < 16
    ensures HexDigit(Hex(d)) == Some(d)
  {
  }

  /** One escaped character reads back, with the rest of the text untouched. */
  lemma EscapeReadsBack(c: char, t: string)
    requires c as int < 0x80 && EscapeChar(c) != [c]
    ensures EscapeChar(c)[0] == '\\' && Escape((EscapeChar(c) + t)[1..]) == Got([c], t)
  {
    var u := (EscapeChar(c) + t)[1..];
    if |EscapeChar(c)| == 2 {
      assert u[1..] == t;
    } else {
      var n := c as int;
      assert u[1..] == "00" + [Hex(n / 16), Hex(n % 16)] + t;
      HexReadsBack(n / 16);
      HexReadsBack(n % 16);
      assert HexDigit('0') == Some(0);
      assert Hex4(u[1..]) == Some(n) && u[1..][4..] == t;
    }
  }

  lemma PlainIsItself(c: char)
    ensures EscapeChar(c) == [c] <==> c != '"' && c != '\\' && c as int >= 0x20
  {
  }

  lemma Slices(s: string, n: nat)
    requires 1 <= n <= |s|
    ensures s[1..][..n - 1] == s[1..n] && s[1..][n - 1..] == s[n..] && [s[0]] + s[1..n] == s[..n]
            && s[..n] + s[n..] == s
  {
  }

  lemma Regroup(a: string, b: string, c: string)
    ensures a + (b + c) == (a + b) + c
  {
  }

  lemma EscapedFront(s: string)
    requires s != ""
    ensures Escaped(s) == EscapeChar(s[0]) + Escaped(s[1..])
  {
  }

  /** Lead and continuation bytes are written as they are. */
  lemma {:induction false} RawIsItself(s: string, n: nat)
    requires n <= |s| && forall i | 0 <= i < n :: s[i] as int >= 0x80
    ensures Escaped(s) == s[..n] + Escaped(s[n..])
  {
    hide Escaped, EscapeChar;
    if n == 0 {
      assert s[0..] == s && s[..0] + Escaped(s) == Escaped(s);
    } else {
      PlainIsItself(s[0]);
      EscapedFront(s);
      RawIsItself(s[1..], n - 1);
      Slices(s, n);
      Regroup([s[0]], s[1..n], Escaped(s[n..]));
    }
  }

  /** A whole character at the front is read whole, whatever follows. */
  lemma CharsTakes(t: string, n: nat, u: string, s: string, rest: string)
    requires Leads(t) && n == Extra(t[0]).value + 1 && t[0] != '"' && t[0] != '\\' && t[0] as int >= 0x20
    requires t[n..] == u && Chars(u) == Got(s, rest)
    ensures Chars(t) == Got(t[..n] + s, rest)
  {
  }

  lemma CharsEscape(t: string, c: string, u: string, s: string, rest: string)
    requires t != "" && t[0] == '\\' && Escape(t[1..]) == Got(c, u) && Chars(u) == Got(s, rest)
    ensures Chars(t) == Got(c + s, rest)
  {
  }

  /** The front character of a valid string, written raw: one plain byte or a multi-byte character. */
  lemma RawReads(s: string, n: nat, tail: string, rest: string)
    requires Leads(s) && n == Extra(s[0]).value + 1 && EscapeChar(s[0]) == [s[0]]
    requires Chars(tail) == Got(s[n..], rest)
    ensures Chars(s[..n] + tail) == Got(s, rest)
  {
    hide Chars, Escape, Escaped;
    var t := s[..n] + tail;
    PlainIsItself(s[0]);
    assert t[n..] == tail && t[..n] == s[..n];
    assert forall i | 0 <= i < n :: t[i] == s[i];
    CharsTakes(t, n, tail, s[n..], rest);
    Slices(s, n);
  }

  lemma EscapedReads(s: string, tail: string, rest: string)
    requires s != "" && s[0] as int < 0x80 && EscapeChar(s[0]) != [s[0]]
    requires Chars(tail) == Got(s[1..], rest)
    ensures Chars(EscapeChar(s[0]) + tail) == Got(s, rest)
  {
    hide Chars, Escape, EscapeChar;
    EscapeReadsBack(s[0], tail);
    var t := EscapeChar(s[0]) + tail;
    assert t[0] == '\\';
    CharsEscape(t, [s[0]], tail, s[1..], rest);
    assert [s[0]] + s[1..] == s;
  }

  lemma WholeCharacter(s: string)
    requires ValidUtf8(s) && s != ""
    ensures Leads(s) && ValidUtf8(s[Extra(s[0]).value + 1..])
    ensures var n := Extra(s[0]).value + 1;
            n <= |s| && (n > 1 ==> forall i | 0 <= i < n :: s[i] as int >= 0x80) && (n == 1 <==> s[0] as int < 0x80)
  {
  }

  /** Every string of whole characters, escaped and closed, reads back as itself. */
  lemma {:induction false} StringReadsBack(s: string, rest: string)
    requires ValidUtf8(s)
    ensures Chars(Escaped(s) + ("\"" + rest)) == Got(s, rest)
    decreases |s|
  {
    hide Escape, EscapeChar, Escaped, ValidUtf8, Leads, Extra;
    var close := "\"" + rest;
    if s == "" {
      EscapedEnds(s);
      assert "" + close == close && close[1..] == rest;
    } else {
      hide Chars;
      WholeCharacter(s);
      var n := Extra(s[0]).value + 1;
      var tail := Escaped(s[n..]) + close;
      StringReadsBack(s[n..], rest);
      PlainIsItself(s[0]);
      if n > 1 {
        RawIsItself(s, n);
        Regroup(s[..n], Escaped(s[n..]), close);
        RawReads(s, n, tail, rest);
      } else {
        EscapedFront(s);
        Regroup(EscapeChar(s[0]), Escaped(s[1..]), close);
        assert [s[0]] == s[..1];
        if EscapeChar(s[0]) == [s[0]] {
          RawReads(s, 1, tail, rest);
        } else {
          EscapedReads(s, tail, rest);
        }
      }
    }
  }
}
