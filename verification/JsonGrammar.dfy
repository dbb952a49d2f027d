/** How the characters of a JSON string may be written, spelt out without saying how text is read, and the strict reader
    proved to take exactly those spellings. */
module JsonGrammar {
  import opened Catalog
  import opened Json
  import opened JsonText

  predicate Blank(s: string) {
    forall i | 0 <= i < |s| :: s[i] == ' ' || s[i] == '\t' || s[i] == '\n' || s[i] == '\r'
  }

  // ----- characters in strings -----

  /** One way to write one character of a string: as it is, or by one of the escapes. */
  datatype Glyph =
    | Raw(s: string)
    | Named(letter: char)
    | Coded(digits: string)
    | Paired(high: string, low: string)

  function GlyphText(g: Glyph): string {
    match g
    case Raw(s) => s
    case Named(c) => ['\\', c]
    case Coded(d) => "\\u" + d
    case Paired(h, l) => "\\u" + h + "\\u" + l
  }

  predicate IsNibble(c: char, n: nat) {
    n < 16 && (c == "0123456789abcdef"[n] || c == "0123456789ABCDEF"[n])
  }

  ghost predicate IsHex(d: string, v: int) {
    |d| == 4 && exists a: nat, b: nat, c: nat, e: nat ::
      && IsNibble(d[0], a) && IsNibble(d[1], b) && IsNibble(d[2], c) && IsNibble(d[3], e)
      && v == 4096 * a + 256 * b + 16 * c + e
  }

  predicate Trails(s: string) {
    forall i | 1 <= i < |s| :: 0x80 <= s[i] as int < 0xC0
  }

  /** A character as the reader takes it raw: a lead byte of its class and the trailing bytes that calls for. */
  predicate IsWhole(s: string) {
    && Trails(s)
    && (|| (|s| == 1 && s[0] as int < 0x80)
        || (|s| == 2 && 0xC0 <= s[0] as int < 0xE0)
        || (|s| == 3 && 0xE0 <= s[0] as int < 0xF0)
        || (|s| == 4 && 0xF0 <= s[0] as int < 0xF8))
  }

  /** The bytes of a code point, read as UTF-8 defines them; none has a shorter form. */
  predicate Encodes(s: string, cp: int) {
    && Trails(s)
    && (|| (|s| == 1 && 0 <= cp < 0x80 && cp == s[0] as int)
        || (|s| == 2 && 0x80 <= cp < 0x800 && cp == (s[0] as int - 0xC0) * 0x40 + (s[1] as int - 0x80))
        || (|s| == 3 && 0x800 <= cp < 0x10000
            && cp == (s[0] as int - 0xE0) * 0x1000 + (s[1] as int - 0x80) * 0x40 + (s[2] as int - 0x80))
        || (|s| == 4 && 0x10000 <= cp < 0x110000
            && cp == (s[0] as int - 0xF0) * 0x40000 + (s[1] as int - 0x80) * 0x1000 + (s[2] as int - 0x80) * 0x40
                     + (s[3] as int - 0x80)))
  }

  predicate IsNamed(c: char, s: string) {
    || (c == '"' && s == "\"") || (c == '\\' && s == "\\") || (c == '/' && s == "/")
    || (c == 'n' && s == "\n") || (c == 'r' && s == "\r") || (c == 't' && s == "\t")
    || (c == 'b' && |s| == 1 && s[0] as int == 8) || (c == 'f' && |s| == 1 && s[0] as int == 12)
  }

  /** What a glyph stands for: itself, the character its letter names, or the code point of its digits, one past the
      first plane by a pair of surrogates. */
  ghost predicate Stands(g: Glyph, s: string) {
    match g
    case Raw(r) => s == r && IsWhole(r) && r[0] as int >= 0x20 && r[0] != '"' && r[0] != '\\'
    case Named(c) => IsNamed(c, s)
    case Coded(d) => exists cp :: IsHex(d, cp) && !(0xD800 <= cp <= 0xDFFF) && Encodes(s, cp)
    case Paired(h, l) =>
      exists a, b :: IsHex(h, a) && IsHex(l, b) && 0xD800 <= a <= 0xDBFF && 0xDC00 <= b <= 0xDFFF
                     && Encodes(s, 0x10000 + (a - 0xD800) * 0x400 + (b - 0xDC00))
  }

  function GlyphsText(gs: seq<Glyph>): string {
    if gs == [] then "" else GlyphText(gs[0]) + GlyphsText(gs[1..])
  }

  ghost predicate Spells(gs: seq<Glyph>, s: string) {
    if gs == [] then s == ""
    else exists n: nat | n <= |s| :: Stands(gs[0], s[..n]) && Spells(gs[1..], s[n..])
  }

  lemma NibbleIs(c: char, n: nat)
    ensures IsNibble(c, n) <==> HexDigit(c) == Some(n)
  {
    if n < 16 {
      var low, high := "0123456789abcdef", "0123456789ABCDEF";
      assert low[n] == Hex(n);
      assert n < 10 ==> high[n] == low[n];
      assert n >= 10 ==> high[n] == ('A' as int + n - 10) as char;
    }
  }

  lemma HexIs(d: string, v: int)
    requires |d| == 4
    ensures IsHex(d, v) <==> Hex4(d).Some? && Hex4(d).value == v
  {
    hide HexDigit, IsNibble;
    forall c: char, n: nat ensures IsNibble(c, n) <==> HexDigit(c) == Some(n) {
      NibbleIs(c, n);
    }
  }

  lemma HexInFront(d: string, t: string)
    requires |d| == 4
    ensures Hex4(d + t) == Hex4(d) && (d + t)[4..] == t
  {
    hide HexDigit;
  }

  /** Base 64 digits are found by division. */
  lemma Sixties(x: int, a: int, b: int, c: int)
    requires 0 <= a < 64 && 0 <= b < 64 && 0 <= c < 64
    ensures var cp := x * 0x40000 + a * 0x1000 + b * 0x40 + c;
            cp / 0x40000 == x && cp / 0x1000 % 0x40 == a && cp / 0x40 % 0x40 == b && cp % 0x40 == c
  {
    var cp := x * 0x40000 + a * 0x1000 + b * 0x40 + c;
    assert cp / 0x40 == x * 0x1000 + a * 0x40 + b && cp / 0x1000 == x * 0x40 + a;
  }

  lemma TwoBytes(s: string, cp: int)
    requires |s| == 2 && Encodes(s, cp)
    ensures s == Utf8(cp)
  {
    Sixties(0, 0, s[0] as int - 0xC0, s[1] as int - 0x80);
    var u := Utf8(cp);
    assert s[0] == u[0] && s[1] == u[1];
  }

  lemma ThreeBytes(s: string, cp: int)
    requires |s| == 3 && Encodes(s, cp)
    ensures s == Utf8(cp)
  {
    Sixties(0, s[0] as int - 0xE0, s[1] as int - 0x80, s[2] as int - 0x80);
    var u := Utf8(cp);
    assert s[0] == u[0] && s[1] == u[1] && s[2] == u[2];
  }

  lemma FourBytes(s: string, cp: int)
    requires |s| == 4 && Encodes(s, cp)
    ensures s == Utf8(cp)
  {
    Sixties(s[0] as int - 0xF0, s[1] as int - 0x80, s[2] as int - 0x80, s[3] as int - 0x80);
    var u := Utf8(cp);
    assert s[0] == u[0] && s[1] == u[1] && s[2] == u[2] && s[3] == u[3];
  }

  lemma EncodedIsUtf8(s: string, cp: int)
    requires Encodes(s, cp)
    ensures 0 <= cp < 0x110000 && s == Utf8(cp)
  {
    if |s| == 2 {
      TwoBytes(s, cp);
    } else if |s| == 3 {
      ThreeBytes(s, cp);
    } else if |s| == 4 {
      FourBytes(s, cp);
    }
  }

  lemma Sixtieths(cp: nat)
    ensures cp == cp / 0x40 * 0x40 + cp % 0x40
    ensures cp / 0x40 == cp / 0x1000 * 0x40 + cp / 0x40 % 0x40
    ensures cp / 0x1000 == cp / 0x40000 * 0x40 + cp / 0x1000 % 0x40
  {
    assert cp / 0x40 / 0x40 == cp / 0x1000;
    assert cp / 0x1000 / 0x40 == cp / 0x40000;
  }

  lemma Utf8Encodes(cp: nat)
    requires cp < 0x110000
    ensures Encodes(Utf8(cp), cp)
  {
    Sixtieths(cp);
    var a, b, c, d := cp / 0x40000, cp / 0x1000, cp / 0x40, cp % 0x40;
    var s := Utf8(cp);
    if cp <= 0x7F {
      assert |s| == 1;
    } else if cp <= 0x7FF {
      assert |s| == 2 && s[0] as int - 0xC0 == c && s[1] as int - 0x80 == d;
    } else if cp <= 0xFFFF {
      assert |s| == 3 && s[0] as int - 0xE0 == b && s[1] as int - 0x80 == c % 0x40 && s[2] as int - 0x80 == d;
    } else {
      assert |s| == 4 && s[0] as int - 0xF0 == a && s[1] as int - 0x80 == b % 0x40 && s[2] as int - 0x80 == c % 0x40
             && s[3] as int - 0x80 == d;
    }
  }

  lemma EncodesIs(s: string, cp: int)
    ensures Encodes(s, cp) <==> 0 <= cp < 0x110000 && s == Utf8(cp)
  {
    hide Encodes, Utf8;
    if Encodes(s, cp) {
      EncodedIsUtf8(s, cp);
    } else if 0 <= cp < 0x110000 {
      Utf8Encodes(cp);
    }
  }

  lemma WholeLeads(s: string, t: string)
    ensures IsWhole(s) ==> Leads(s + t) && |s| == Extra(s[0]).value + 1
    ensures Leads(t) ==>
            t != "" && Extra(t[0]).Some? && Extra(t[0]).value + 1 <= |t| && IsWhole(t[..Extra(t[0]).value + 1])
  {
    var u := s + t;
    assert forall i | 0 <= i < |s| :: u[i] == s[i];
  }

  // ----- strings -----

  lemma NamedReads(c: char, s: string, t: string)
    requires IsNamed(c, s)
    ensures var u := GlyphText(Named(c)) + t; u[0] == '\\' && Escape(u[1..]) == Got(s, t)
  {
    assert (GlyphText(Named(c)) + t)[1..][1..] == t;
    if |s| == 1 {
      assert s == [s[0]];
    }
  }

  lemma CodedReads(d: string, s: string, t: string)
    requires Stands(Coded(d), s)
    ensures var u := GlyphText(Coded(d)) + t; u[0] == '\\' && Escape(u[1..]) == Got(s, t)
  {
    hide Hex4, IsHex, Encodes, Utf8;
    var cp :| IsHex(d, cp) && !(0xD800 <= cp <= 0xDFFF) && Encodes(s, cp);
    HexLength(d, cp);
    HexIs(d, cp);
    HexInFront(d, t);
    EncodesIs(s, cp);
    assert (GlyphText(Coded(d)) + t)[1..] == "u" + (d + t);
  }

  lemma HexLength(d: string, v: int)
    requires IsHex(d, v)
    ensures |d| == 4
  {
  }

  lemma FrontAndRest(h: string, rest: string)
    ensures (h + rest)[..|h|] == h && (h + rest)[|h|..] == rest
  {
  }

  lemma CodeInFront(x: string)
    ensures var r := "\\u" + x; r[0] == '\\' && r[1] == 'u' && r[1..] == "u" + x && r[2..] == x
  {
  }

  lemma PairText(h: string, l: string, t: string)
    ensures GlyphText(Paired(h, l)) + t == "\\u" + (h + ("\\u" + (l + t)))
  {
    Regroup("\\u" + h + "\\u", l, t);
    Regroup("\\u" + h, "\\u", l + t);
    Regroup("\\u", h, "\\u" + (l + t));
  }

  lemma PastCode(l: string, t: string)
    requires |l| == 4
    ensures ("\\u" + (l + t))[6..] == t
  {
    Regroup("\\u", l, t);
    FrontAndRest("\\u" + l, t);
  }

  /** The pieces of an escaped surrogate pair. */
  lemma PairSlices(h: string, l: string, t: string)
    requires |h| == |l| == 4
    ensures var u, rest := GlyphText(Paired(h, l)) + t, "\\u" + (l + t);
            && u == "\\u" + (h + rest) && u[0] == '\\' && u[1..] == "u" + (h + rest) && (h + rest)[4..] == rest
            && (h + rest)[..4] == h && rest[0] == '\\' && rest[1] == 'u' && rest[2..] == l + t && rest[6..] == t
  {
    hide GlyphText;
    var rest := "\\u" + (l + t);
    PairText(h, l, t);
    CodeInFront(h + rest);
    CodeInFront(l + t);
    FrontAndRest(h, rest);
    PastCode(l, t);
  }

  lemma EscapedCode(x: string)
    ensures Escape("u" + x) == CodePoint(x)
  {
    assert ("u" + x)[1..] == x;
  }

  lemma PairedReads(h: string, l: string, s: string, t: string)
    requires Stands(Paired(h, l), s)
    ensures var u := GlyphText(Paired(h, l)) + t; u[0] == '\\' && Escape(u[1..]) == Got(s, t)
  {
    hide Hex4, IsHex, Encodes, Utf8, Escape, GlyphText;
    var a, b :| IsHex(h, a) && IsHex(l, b) && 0xD800 <= a <= 0xDBFF && 0xDC00 <= b <= 0xDFFF
                && Encodes(s, 0x10000 + (a - 0xD800) * 0x400 + (b - 0xDC00));
    HexLength(h, a);
    HexLength(l, b);
    HexIs(h, a);
    HexIs(l, b);
    var rest := "\\u" + (l + t);
    HexInFront(h, rest);
    HexInFront(l, t);
    EncodesIs(s, 0x10000 + (a - 0xD800) * 0x400 + (b - 0xDC00));
    PairSlices(h, l, t);
    EscapedCode(h + rest);
  }

  lemma PlainReads(r: string, tail: string, more: string, rest: string)
    requires IsWhole(r) && r[0] as int >= 0x20 && r[0] != '"' && r[0] != '\\' && Chars(tail) == Got(more, rest)
    ensures Chars(r + tail) == Got(r + more, rest)
  {
    hide Chars, Escape, Leads, Extra;
    var t := r + tail;
    WholeLeads(r, tail);
    assert t[0] == r[0] && t[..|r|] == r && t[|r|..] == tail;
    CharsTakes(t, |r|, tail, more, rest);
  }

  lemma GlyphEscapes(g: Glyph, s: string, tail: string)
    requires Stands(g, s) && !g.Raw?
    ensures var t := GlyphText(g) + tail; t[0] == '\\' && Escape(t[1..]) == Got(s, tail)
  {
    hide Escape, IsNamed, IsHex, Encodes, GlyphText;
    match g {
      case Named(c) => NamedReads(c, s, tail);
      case Coded(d) => CodedReads(d, s, tail);
      case Paired(h, l) => PairedReads(h, l, s, tail);
    }
  }

  /** A glyph is read as the character it stands for. */
  lemma GlyphReads(g: Glyph, s: string, tail: string, more: string, rest: string)
    requires Stands(g, s) && Chars(tail) == Got(more, rest)
    ensures Chars(GlyphText(g) + tail) == Got(s + more, rest)
  {
    hide Chars, Escape, GlyphText;
    if g.Raw? {
      RawStands(g.s, s);
      PlainReads(g.s, tail, more, rest);
    } else {
      GlyphEscapes(g, s, tail);
      CharsEscape(GlyphText(g) + tail, s, tail, more, rest);
    }
  }

  lemma RawStands(r: string, s: string)
    ensures Stands(Raw(r), s) <==> s == r && IsWhole(r) && r[0] as int >= 0x20 && r[0] != '"' && r[0] != '\\'
    ensures GlyphText(Raw(r)) == r
  {
  }

  /** However a string is spelt, it is read. */
  lemma {:induction false} SpellingReads(gs: seq<Glyph>, s: string, rest: string)
    requires Spells(gs, s)
    ensures Chars(GlyphsText(gs) + ("\"" + rest)) == Got(s, rest)
  {
    hide Chars, Stands, GlyphText;
    var close := "\"" + rest;
    if gs == [] {
      assert "" + close == close;
      Closing(rest);
    } else {
      var n: nat :| n <= |s| && Stands(gs[0], s[..n]) && Spells(gs[1..], s[n..]);
      SpellingReads(gs[1..], s[n..], rest);
      GlyphReads(gs[0], s[..n], GlyphsText(gs[1..]) + close, s[n..], rest);
      Regroup(GlyphText(gs[0]), GlyphsText(gs[1..]), close);
      assert s[..n] + s[n..] == s;
    }
  }

  lemma Closing(rest: string)
    ensures Chars("\"" + rest) == Got("", rest)
  {
    assert ("\"" + rest)[1..] == rest;
  }

  lemma CodeIsGlyph(u: string) returns (g: Glyph)
    requires CodePoint(u).Got?
    ensures Stands(g, CodePoint(u).value) && "\\u" + u == GlyphText(g) + CodePoint(u).rest
  {
    hide Hex4, IsHex, Encodes, Utf8;
    var d, cp := u[..4], Hex4(u).value;
    FrontHex(u);
    HexIs(d, cp);
    if 0xD800 <= cp <= 0xDBFF {
      g := PairIsGlyph(u);
    } else {
      g := Coded(d);
      EncodesIs(CodePoint(u).value, cp);
      assert u == d + u[4..];
      Regroup("\\u", d, u[4..]);
    }
  }

  lemma PairIsGlyph(u: string) returns (g: Glyph)
    requires CodePoint(u).Got? && 0xD800 <= Hex4(u).value <= 0xDBFF
    ensures Stands(g, CodePoint(u).value) && "\\u" + u == GlyphText(g) + CodePoint(u).rest
  {
    hide Hex4, IsHex, Encodes, Utf8, GlyphText;
    var d, cp, v := u[..4], Hex4(u).value, u[4..][2..];
    var l, low := v[..4], Hex4(v).value;
    FrontHex(u);
    HexIs(d, cp);
    FrontHex(v);
    HexIs(l, low);
    g := Paired(d, l);
    EncodesIs(CodePoint(u).value, 0x10000 + (cp - 0xD800) * 0x400 + (low - 0xDC00));
    PairSlices(d, l, v[4..]);
    assert v == l + v[4..] && v[4..] == u[4..][6..] && u[4..] == "\\u" + v && u == d + u[4..];
  }

  /** The glyph an escape is read from. */
  lemma EscapeIsGlyph(t: string) returns (g: Glyph)
    requires Escape(t).Got?
    ensures Stands(g, Escape(t).value) && ['\\'] + t == GlyphText(g) + Escape(t).rest
  {
    hide CodePoint;
    if t[0] == 'u' {
      g := CodeIsGlyph(t[1..]);
      assert ['\\'] + t == "\\u" + t[1..];
    } else {
      g := Named(t[0]);
      assert t == [t[0]] + Escape(t).rest;
    }
  }

  lemma FrontHex(t: string)
    requires Hex4(t).Some?
    ensures |t| >= 4 && Hex4(t[..4]) == Hex4(t)
  {
    HexInFront(t[..4], t[4..]);
    assert t[..4] + t[4..] == t;
  }

  /** The first character of a string, and the rest of it. */
  lemma FirstIsGlyph(t: string) returns (g: Glyph, a: string, u: string)
    requires Chars(t).Got? && t[0] != '"'
    ensures Stands(g, a) && t == GlyphText(g) + u && |u| < |t|
    ensures Chars(u).Got? && Chars(t) == Got(a + Chars(u).value, Chars(u).rest)
  {
    hide Stands, Escape, Leads, Extra, GlyphText;
    if t[0] == '\\' {
      g := EscapeIsGlyph(t[1..]);
      a, u := Escape(t[1..]).value, Escape(t[1..]).rest;
      assert t == ['\\'] + t[1..];
    } else {
      WholeLeads("", t);
      var n := Extra(t[0]).value + 1;
      RawStands(t[..n], t[..n]);
      g, a, u := Raw(t[..n]), t[..n], t[n..];
    }
  }

  lemma Opened(t: string)
    requires Chars(t).Got?
    ensures t != "" && (t[0] == '"' ==> t == "\"" + Chars(t).rest && Chars(t).value == "")
  {
  }

  /** Whatever string is read was spelt. */
  lemma {:induction false} ReadIsSpelt(t: string) returns (gs: seq<Glyph>)
    requires Chars(t).Got?
    ensures Spells(gs, Chars(t).value) && t == GlyphsText(gs) + ("\"" + Chars(t).rest)
    decreases |t|
  {
    hide Chars, Stands, GlyphText, Spells, GlyphsText;
    var rest := Chars(t).rest;
    Opened(t);
    if t[0] == '"' {
      gs := [];
      NothingSpelt();
      assert "" + t == t;
    } else {
      var g, a, u := FirstIsGlyph(t);
      var more := ReadIsSpelt(u);
      gs := [g] + more;
      Spelt(g, more, a, Chars(u).value);
      Regroup(GlyphText(g), GlyphsText(more), "\"" + rest);
    }
  }

  lemma NothingSpelt()
    ensures Spells([], "") && GlyphsText([]) == ""
  {
  }

  lemma Spelt(g: Glyph, gs: seq<Glyph>, a: string, b: string)
    requires Stands(g, a) && Spells(gs, b)
    ensures Spells([g] + gs, a + b) && GlyphsText([g] + gs) == GlyphText(g) + GlyphsText(gs)
  {
    hide Stands, GlyphText;
    assert ([g] + gs)[1..] == gs && (a + b)[..|a|] == a && (a + b)[|a|..] == b;
  }

  // ----- the canonical spelling -----

  lemma ShortestSpelling(c: char, g: Glyph)
    requires c as int < 0x80 && Stands(g, [c])
    ensures |EscapeChar(c)| <= |GlyphText(g)|
  {
    match g {
      case Named(l) =>
      case Coded(d) =>
        var cp :| IsHex(d, cp) && !(0xD800 <= cp <= 0xDFFF) && Encodes([c], cp);
        HexLength(d, cp);
      case Paired(_, _) =>
      case Raw(s) => PlainIsItself(c);
    }
  }

  /** A plain character is written canonically in its shortest spelling, and a coded one in lower-case digits. */
  lemma CanonicalSpelling(c: char)
    requires c as int < 0x80
    ensures exists g :: Stands(g, [c]) && GlyphText(g) == EscapeChar(c)
    ensures forall g | Stands(g, [c]) :: |EscapeChar(c)| <= |GlyphText(g)|
    ensures |EscapeChar(c)| > 1 ==> forall i | 0 <= i < |EscapeChar(c)| :: !('A' <= EscapeChar(c)[i] <= 'F')
  {
    var s := EscapeChar(c);
    forall g | Stands(g, [c]) ensures |EscapeChar(c)| <= |GlyphText(g)| {
      ShortestSpelling(c, g);
    }
    if |s| == 1 {
      PlainIsItself(c);
      assert IsWhole([c]);
      assert Stands(Raw(s), [c]) && GlyphText(Raw(s)) == s;
    } else if |s| == 2 {
      assert IsNamed(s[1], [c]);
      assert GlyphText(Named(s[1])) == s;
    } else {
      CodedSpelling(c);
    }
  }

  lemma CodedSpelling(c: char)
    requires |EscapeChar(c)| == 6
    ensures exists g :: Stands(g, [c]) && GlyphText(g) == EscapeChar(c)
  {
    hide IsNibble;
    var n := c as int;
    var d := ['0', '0', Hex(n / 16), Hex(n % 16)];
    NibbleIs('0', 0);
    NibbleIs(Hex(n / 16), n / 16);
    NibbleIs(Hex(n % 16), n % 16);
    HexReadsBack(n / 16);
    HexReadsBack(n % 16);
    assert IsNibble(d[0], 0) && IsNibble(d[1], 0) && IsNibble(d[2], n / 16) && IsNibble(d[3], n % 16);
    assert n == 4096 * 0 + 256 * 0 + 16 * (n / 16) + n % 16;
    assert IsHex(d, n);
    assert Encodes([c], n);
    assert Stands(Coded(d), [c]) && GlyphText(Coded(d)) == EscapeChar(c);
  }
}
