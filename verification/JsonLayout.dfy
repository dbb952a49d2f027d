/** The texts of whole values, tokens with white space between them, and the strict reader proved to accept exactly the
    texts of values within its limits. */
module JsonLayout {
  import opened Catalog
  import opened Decimal
  import opened Json
  import opened JsonText
  import opened JsonGrammar
  import JsonRoundTrip

  // ----- values laid out as text -----

  /** A value's text with the white space around each token: before and after a value, after a key, and inside what is
      empty. A key is kept with its spelling. */
  datatype Lay = Lay(lead: string, body: Body, trail: string)
  datatype Body =
    | Word(v: Json)
    | Numeral(digits: string)
    | Chain(gs: seq<Glyph>)
    | List(items: seq<Lay>, hollow: string)
    | Table(entries: seq<Entry>, hollow: string)
  datatype Entry = Entry(lead: string, gs: seq<Glyph>, key: string, trail: string, value: Lay)

  function LayText(l: Lay): string {
    l.lead + BodyText(l.body) + l.trail
  }

  function BodyText(b: Body): string {
    match b
    case Word(v) => if v == Null then "null" else if v == Bool(true) then "true" else "false"
    case Numeral(s) => s
    case Chain(gs) => "\"" + GlyphsText(gs) + "\""
    case List(items, hollow) => "[" + (if items == [] then hollow else ListText(items, 0)) + "]"
    case Table(es, hollow) => "{" + (if es == [] then hollow else TableText(es, 0)) + "}"
  }

  function ListText(items: seq<Lay>, k: nat): string
    requires k < |items|
    decreases items, |items| - k
  {
    LayText(items[k]) + (if k + 1 < |items| then "," + ListText(items, k + 1) else "")
  }

  function KeyText(e: Entry): string {
    e.lead + "\"" + GlyphsText(e.gs) + "\"" + e.trail + ":"
  }

  function TableText(es: seq<Entry>, k: nat): string
    requires k < |es|
    decreases es, |es| - k
  {
    KeyText(es[k]) + LayText(es[k].value) + (if k + 1 < |es| then "," + TableText(es, k + 1) else "")
  }

  ghost predicate EntryShows(e: Entry) {
    Blank(e.lead) && Blank(e.trail) && Spells(e.gs, e.key)
  }

  ghost predicate Distinct(ms: seq<Member>) {
    forall i, j | 0 <= i < j < |ms| :: ms[i].key != ms[j].key
  }

  /** The value a text is laid out for. The members of an object may be written in any order. */
  ghost predicate Shows(l: Lay, v: Json)
    decreases l
  {
    && Blank(l.lead) && Blank(l.trail)
    && match l.body
       case Word(w) => v == w && (w.Null? || w.Bool?)
       case Numeral(s) => v.Int? && Parsed(s) == Some(v.i)
       case Chain(gs) => v.Str? && Spells(gs, v.s)
       case List(items, hollow) =>
         && v.Arr? && |items| == |v.items| && Blank(hollow)
         && forall i | 0 <= i < |items| :: Shows(items[i], v.items[i])
       case Table(es, hollow) =>
         && v.Obj? && Blank(hollow) && KeysAscend(v.members)
         && exists ms: seq<Member> ::
              multiset(ms) == multiset(v.members) && Distinct(ms) && EntriesShow(es, ms)
  }

  ghost predicate EntriesShow(es: seq<Entry>, ms: seq<Member>)
    decreases es
  {
    && |ms| == |es|
    && forall i | 0 <= i < |es| :: EntryShows(es[i]) && ms[i].key == es[i].key && Shows(es[i].value, ms[i].value)
  }

  // ----- white space and tokens -----

  /** White space is skipped, all of it and nothing else. */
  lemma {:induction false} BlankIsSkipped(b: string, t: string)
    requires Blank(b) && (t != "" ==> !Blank(t[..1]) && t[0] != '/')
    ensures Ws(b + t) == Some(t)
  {
    if b == "" {
      assert b + t == t;
    } else {
      assert (b + t)[1..] == b[1..] + t;
      BlankIsSkipped(b[1..], t);
    }
  }

  lemma {:induction false} SkippedIsBlank(t: string)
    requires Ws(t).Some?
    ensures var u := Ws(t).value;
            |u| <= |t| && Blank(t[..|t| - |u|]) && t == t[..|t| - |u|] + u && t[|t| - |u|..] == u
    ensures Ws(t).value != "" ==> !Blank(Ws(t).value[..1]) && Ws(t).value[0] != '/'
  {
    if t != "" && IsWs(t[0]) {
      SkippedIsBlank(t[1..]);
      var n := |t| - |Ws(t).value|;
      assert t[1..][n - 1..] == t[n..] && t[..n] == [t[0]] + t[1..][..n - 1];
    }
  }

  /** What may stand after a value: white space, a comma or a closing bracket. */
  predicate Ends(t: string) {
    t == "" || Blank(t[..1]) || t[0] == ',' || t[0] == ']' || t[0] == '}'
  }

  lemma NumeralReads(s: string, v: int, rest: string)
    requires Parsed(s) == Some(v) && Ends(rest)
    ensures Number(s + rest) == Got(Int(v), rest)
    ensures s != "" && (s[0] == '-' || IsDigit(s[0]))
  {
    hide Parsed, DigitRun, ValueOf;
    ParsedIsCanonical(s);
    var d := Decimal.Body(s);
    var t, u := s + rest, d + rest;
    JsonRoundTrip.RunOfDigits(d, rest);
    assert u[0] == d[0] && u[|d|..] == rest && t[..|s|] == s;
    if s[0] == '-' {
      assert t[1..] == u;
    } else {
      assert t == u;
    }
  }

  lemma ParsedIsCanonical(s: string)
    requires Parsed(s).Some?
    ensures var d := Decimal.Body(s); s != "" && d != "" && AllDigits(d) && (d[0] == '0' ==> |d| == 1)
  {
    hide ValueOf, Unnoticed;
  }

  lemma ReadIsNumeral(t: string)
    requires Number(t).Got?
    ensures var r := Number(t);
            && r.value.Int? && |r.rest| <= |t|
            && Parsed(t[..|t| - |r.rest|]) == Some(r.value.i) && t == t[..|t| - |r.rest|] + r.rest
  {
    hide Parsed, DigitRun;
  }

  lemma WordReads(w: Json, rest: string)
    requires w.Null? || w.Bool?
    ensures var s := BodyText(Word(w));
            && s == (if w.Null? then "null" else if w.b then "true" else "false")
            && Literal(s + rest, s, w) == Got(w, rest)
  {
    var s := BodyText(Word(w));
    assert (s + rest)[..|s|] == s && (s + rest)[|s|..] == rest;
  }

  // ----- whatever is laid out is read -----

  /** The members put in order one after another. */
  function Sorted(ms: seq<Member>): seq<Member> {
    if ms == [] then [] else Insert(Sorted(ms[..|ms| - 1]), ms[|ms| - 1])
  }

  lemma {:induction false} InsertSame(ms: seq<Member>, m: Member)
    ensures multiset(Insert(ms, m)) == multiset(ms) + multiset{m}
  {
    if ms != [] {
      assert ms == ms[..|ms| - 1] + [ms[|ms| - 1]];
      InsertSame(ms[..|ms| - 1], m);
    }
  }

  lemma {:induction false} SortedIs(ms: seq<Member>)
    requires Distinct(ms)
    ensures multiset(Sorted(ms)) == multiset(ms) && |Sorted(ms)| == |ms| && KeysAscend(Sorted(ms))
  {
    hide KeysAscend, Insert;
    if ms == [] {
      NothingAscends();
    } else {
      var n := |ms| - 1;
      assert ms == ms[..n] + [ms[n]];
      SortedIs(ms[..n]);
      var before := Sorted(ms[..n]);
      KeysOfSame(before, ms[..n], ms[n].key);
      InsertAscends(before, ms[n]);
      InsertSame(before, ms[n]);
      InsertHolds(before, ms[n]);
    }
  }

  lemma NothingAscends()
    ensures KeysAscend([])
  {
  }

  lemma KeysOfSame(a: seq<Member>, b: seq<Member>, key: string)
    requires multiset(a) == multiset(b)
    ensures HasKey(a, key) <==> HasKey(b, key)
  {
    if HasKey(a, key) {
      var i :| 0 <= i < |a| && a[i].key == key;
      assert a[i] in multiset(b);
    }
    if HasKey(b, key) {
      var i :| 0 <= i < |b| && b[i].key == key;
      assert b[i] in multiset(a);
    }
  }

  lemma LastIsSame(a: seq<Member>, b: seq<Member>)
    requires KeysAscend(a) && KeysAscend(b) && multiset(a) == multiset(b) && a != [] && b != []
    ensures a[|a| - 1] == b[|b| - 1]
  {
    hide Less;
    var x, y := a[|a| - 1], b[|b| - 1];
    assert x in multiset(b) && y in multiset(a);
    var i :| 0 <= i < |b| && b[i] == x;
    var j :| 0 <= j < |a| && a[j] == y;
    LessIsStrict(x.key, y.key);
  }

  /** There is one ascending arrangement of the same members. */
  lemma {:induction false} AscendingIsUnique(a: seq<Member>, b: seq<Member>)
    requires KeysAscend(a) && KeysAscend(b) && multiset(a) == multiset(b)
    ensures a == b
  {
    hide KeysAscend;
    assert |multiset(a)| == |a| && |multiset(b)| == |b|;
    if a != [] {
      var n := |a| - 1;
      LastIsSame(a, b);
      WithoutLast(a);
      WithoutLast(b);
      AscendingIsUnique(a[..n], b[..n]);
    }
  }

  lemma WithoutLast(a: seq<Member>)
    requires KeysAscend(a) && a != []
    ensures KeysAscend(a[..|a| - 1]) && a == a[..|a| - 1] + [a[|a| - 1]]
    ensures multiset(a[..|a| - 1]) == multiset(a) - multiset{a[|a| - 1]}
  {
    hide Less;
    assert a == a[..|a| - 1] + [a[|a| - 1]];
  }

  /** Past a value's trailing space stands what follows it. */
  lemma TrailSkipped(trail: string, after: string)
    requires Blank(trail) && after != "" && (after[0] == ',' || after[0] == ']' || after[0] == '}')
    ensures Ws(trail + after) == Some(after) && Ends(trail + after)
  {
    BlankIsSkipped(trail, after);
    if trail != "" {
      assert (trail + after)[..1] == trail[..1];
    }
  }

  /** A laid-out value followed by something: its lead, its body, and its trail in front of the rest. */
  lemma LaySplits(l: Lay, after: string)
    ensures LayText(l) + after == l.lead + (BodyText(l.body) + (l.trail + after))
  {
    Regroup(l.lead + BodyText(l.body), l.trail, after);
    Regroup(l.lead, BodyText(l.body), l.trail + after);
  }

  lemma {:induction false} ListReads(lim: Limits, items: seq<Lay>, vs: seq<Json>, k: nat, depth: nat, rest: string)
    requires k < |items| == |vs| <= lim.maxArray
    requires forall i | 0 <= i < |items| :: Shows(items[i], vs[i]) && Printable(lim, vs[i], depth + 1)
    ensures Items(lim, ListText(items, k) + ("]" + rest), depth, vs[..k]) == Got(Arr(vs), rest)
    decreases items, |items| - k
  {
    hide BodyText, ParseValue, Printable, Items, Shows, Blank;
    var l, close := items[k], "]" + rest;
    var last := k + 1 == |items|;
    var after := if last then close else "," + (ListText(items, k + 1) + close);
    var t := ListText(items, k) + close;
    ListSplits(items, k, close);
    LaySplits(l, after);
    ShowsBlank(l, vs[k]);
    TrailSkipped(l.trail, after);
    LayReads(lim, l, vs[k], depth + 1, l.trail + after);
    ItemReads(lim, t, depth, vs[..k], vs[k], l.trail + after, after);
    assert vs[..k] + [vs[k]] == vs[..k + 1];
    if last {
      assert vs[..k + 1] == vs && after[1..] == rest;
    } else {
      ListReads(lim, items, vs, k + 1, depth, rest);
      assert after[1..] == ListText(items, k + 1) + close;
    }
  }

  lemma ListSplits(items: seq<Lay>, k: nat, close: string)
    requires k < |items|
    ensures ListText(items, k) + close == LayText(items[k]) + (if k + 1 == |items| then close
            else "," + (ListText(items, k + 1) + close))
  {
    hide LayText;
    if k + 1 == |items| {
      assert LayText(items[k]) + "" == LayText(items[k]);
    } else {
      Regroup(LayText(items[k]), "," + ListText(items, k + 1), close);
      Regroup(",", ListText(items, k + 1), close);
    }
  }

  lemma TableSplits(es: seq<Entry>, k: nat, close: string)
    requires k < |es|
    ensures TableText(es, k) + close == KeyText(es[k]) + (LayText(es[k].value) + (if k + 1 == |es| then close
            else "," + (TableText(es, k + 1) + close)))
  {
    hide LayText, KeyText;
    var q, x := KeyText(es[k]), LayText(es[k].value);
    if k + 1 == |es| {
      assert q + x + "" == q + x;
      Regroup(q, x, close);
    } else {
      Regroup(q + x, "," + TableText(es, k + 1), close);
      Regroup(",", TableText(es, k + 1), close);
      Regroup(q, x, "," + (TableText(es, k + 1) + close));
    }
  }

  lemma ShowsBlank(l: Lay, v: Json)
    requires Shows(l, v)
    ensures Blank(l.lead) && Blank(l.trail)
  {
  }

  lemma ItemReads(lim: Limits, t: string, depth: nat, acc: seq<Json>, v: Json, r: string, q: string)
    requires |acc| < lim.maxArray && ParseValue(lim, t, depth + 1) == Got(v, r) && Ws(r) == Some(q) && q != ""
    ensures q[0] == ']' ==> Items(lim, t, depth, acc) == Got(Arr(acc + [v]), q[1..])
    ensures q[0] == ',' ==> Items(lim, t, depth, acc) == Items(lim, q[1..], depth, acc + [v])
  {
    hide ParseValue, Ws;
  }

  lemma MemberReads(lim: Limits, t: string, depth: nat, acc: seq<Member>, m: Member, tail: string, r: string, q: string)
    requires Key(lim, t, acc) == Got(m.key, tail)
    requires ParseValue(lim, tail, depth + 1) == Got(m.value, r) && Ws(r) == Some(q) && q != ""
    ensures q[0] == '}' ==> Members(lim, t, depth, acc) == Got(Obj(Insert(acc, m)), q[1..])
    ensures q[0] == ',' ==> Members(lim, t, depth, acc) == Members(lim, q[1..], depth, Insert(acc, m))
  {
    hide ParseValue, Ws, Key, Insert;
    assert Member(m.key, m.value) == m;
  }

  /** A key is read with the space around it and its colon. */
  lemma KeyReads(lim: Limits, e: Entry, acc: seq<Member>, tail: string)
    requires EntryShows(e) && !HasKey(acc, e.key) && |acc| < lim.maxKeys
    ensures Key(lim, KeyText(e) + tail, acc) == Got(e.key, tail)
  {
    hide Chars, HasKey, GlyphsText, Spells, Blank;
    var colon := ":" + tail;
    var quoted := GlyphsText(e.gs) + ("\"" + (e.trail + colon));
    KeySplits(e, tail);
    Unblank('"', quoted);
    BlankIsSkipped(e.lead, "\"" + quoted);
    SpellingReads(e.gs, e.key, e.trail + colon);
    Unblank(':', tail);
    BlankIsSkipped(e.trail, colon);
    assert ("\"" + quoted)[1..] == quoted && colon[1..] == tail;
  }

  lemma Unblank(c: char, t: string)
    requires c != ' ' && c != '\t' && c != '\n' && c != '\r'
    ensures !Blank(([c] + t)[..1])
  {
    assert ([c] + t)[..1][0] == c;
  }

  lemma KeySplits(e: Entry, tail: string)
    ensures KeyText(e) + tail == e.lead + ("\"" + (GlyphsText(e.gs) + ("\"" + (e.trail + (":" + tail)))))
  {
    hide GlyphsText;
    var g := GlyphsText(e.gs);
    Regroup(e.lead + "\"" + g + "\"" + e.trail, ":", tail);
    Regroup(e.lead + "\"" + g + "\"", e.trail, ":" + tail);
    Regroup(e.lead + "\"" + g, "\"", e.trail + (":" + tail));
    Regroup(e.lead + "\"", g, "\"" + (e.trail + (":" + tail)));
    Regroup(e.lead, "\"", g + ("\"" + (e.trail + (":" + tail))));
  }

  lemma {:induction false} TableReads(lim: Limits, es: seq<Entry>, ms: seq<Member>, k: nat, depth: nat, rest: string)
    requires k < |es| == |ms| <= lim.maxKeys && Distinct(ms)
    requires EntriesShow(es, ms) && forall i | 0 <= i < |ms| :: Printable(lim, ms[i].value, depth + 1)
    ensures Members(lim, TableText(es, k) + ("}" + rest), depth, Sorted(ms[..k])) == Got(Obj(Sorted(ms)), rest)
    decreases es, |es| - k
  {
    hide BodyText, ParseValue, Printable, Key, Members, Shows, Blank, EntryShows, Insert, KeyText, Ws;
    var l, close := es[k].value, "}" + rest;
    var last := k + 1 == |es|;
    var after := if last then close else "," + (TableText(es, k + 1) + close);
    var t := TableText(es, k) + close;
    TableSplits(es, k, close);
    LaySplits(l, after);
    ShowsBlank(l, ms[k].value);
    TrailSkipped(l.trail, after);
    NewKey(ms, k);
    KeyReads(lim, es[k], Sorted(ms[..k]), LayText(l) + after);
    LayReads(lim, l, ms[k].value, depth + 1, l.trail + after);
    MemberReads(lim, t, depth, Sorted(ms[..k]), ms[k], LayText(l) + after, l.trail + after, after);
    assert ms[..k + 1][..k] == ms[..k];
    if last {
      assert ms[..k + 1] == ms && after[1..] == rest;
    } else {
      TableReads(lim, es, ms, k + 1, depth, rest);
      assert after[1..] == TableText(es, k + 1) + close;
    }
  }

  lemma NewKey(ms: seq<Member>, k: nat)
    requires Distinct(ms) && k < |ms|
    ensures !HasKey(Sorted(ms[..k]), ms[k].key) && |Sorted(ms[..k])| == k
  {
    hide Sorted, KeysAscend;
    SortedIs(ms[..k]);
    KeysOfSame(Sorted(ms[..k]), ms[..k], ms[k].key);
  }

  lemma ChainReads(gs: seq<Glyph>, s: string, rest: string)
    requires Spells(gs, s)
    ensures var u := BodyText(Chain(gs)) + rest; u != "" && u[0] == '"' && Chars(u[1..]) == Got(s, rest)
  {
    hide Chars, GlyphsText, Spells;
    var u := BodyText(Chain(gs)) + rest;
    SpellingReads(gs, s, rest);
    Regroup("\"" + GlyphsText(gs), "\"", rest);
    Regroup("\"", GlyphsText(gs), "\"" + rest);
    assert u[1..] == GlyphsText(gs) + ("\"" + rest);
  }

  lemma EnclosedSplits(open: char, inner: string, close: char, rest: string)
    ensures var u := [open] + inner + [close] + rest; u != "" && u[0] == open && u[1..] == inner + ([close] + rest)
  {
  }

  lemma ArrayReads(lim: Limits, items: seq<Lay>, hollow: string, vs: seq<Json>, depth: nat, rest: string)
    requires Blank(hollow) && |items| == |vs| <= lim.maxArray
    requires forall i | 0 <= i < |items| :: Shows(items[i], vs[i]) && Printable(lim, vs[i], depth + 1)
    ensures var u := BodyText(List(items, hollow)) + rest;
            u != "" && u[0] == '[' && ParseArray(lim, u[1..], depth) == Got(Arr(vs), rest)
    decreases items, |items| + 1
  {
    hide ListText, Items, Printable, Blank, Shows, Ws;
    var inner, close := if items == [] then hollow else ListText(items, 0), "]" + rest;
    EnclosedSplits('[', inner, ']', rest);
    if items == [] {
      Unblank(']', rest);
      BlankIsSkipped(hollow, close);
      assert close[1..] == rest;
    } else {
      ListReads(lim, items, vs, 0, depth, rest);
      ListSkips(lim, items, vs, depth, close);
      assert vs[..0] == [];
    }
  }

  /** The space in front of a list is skipped before its first item is; reading on from there is the same. */
  lemma ListSkips(lim: Limits, items: seq<Lay>, vs: seq<Json>, depth: nat, close: string)
    requires 0 < |items| == |vs| && Shows(items[0], vs[0])
    ensures var t := ListText(items, 0) + close;
            && Ws(t).Some? && Ws(t).value != "" && Ws(t).value[0] != ']'
            && Items(lim, Ws(t).value, depth, []) == Items(lim, t, depth, [])
  {
    hide ListText, Shows, BodyText, Blank;
    var l := items[0];
    var after := if |items| == 1 then close else "," + (ListText(items, 1) + close);
    var t, u := ListText(items, 0) + close, BodyText(l.body) + (l.trail + after);
    ListSplits(items, 0, close);
    LaySplits(l, after);
    ShowsBlank(l, vs[0]);
    BodyStarts(l, vs[0], l.trail + after);
    BlankIsSkipped(l.lead, u);
    SkipsAgain(lim, t, depth);
  }

  /** Reading a value or a key skips white space itself. */
  lemma SkipsAgain(lim: Limits, t: string, depth: nat)
    requires Ws(t).Some?
    ensures Ws(Ws(t).value) == Ws(t)
    ensures ParseValue(lim, Ws(t).value, depth) == ParseValue(lim, t, depth)
    ensures Items(lim, Ws(t).value, depth, []) == Items(lim, t, depth, [])
    ensures Members(lim, Ws(t).value, depth, []) == Members(lim, t, depth, [])
  {
    hide ParseValue, Key, Ws;
    WsTwice(t);
    ValueSkips(lim, t, depth);
    ValueSkips(lim, t, depth + 1);
    KeySkips(lim, t);
  }

  lemma ValueSkips(lim: Limits, t: string, depth: nat)
    requires Ws(t).Some? && Ws(Ws(t).value) == Ws(t)
    ensures ParseValue(lim, Ws(t).value, depth) == ParseValue(lim, t, depth)
  {
    hide Chars, Number, ParseArray, ParseObject, Literal, Ws;
  }

  lemma KeySkips(lim: Limits, t: string)
    requires Ws(t).Some? && Ws(Ws(t).value) == Ws(t)
    ensures Key(lim, Ws(t).value, []) == Key(lim, t, [])
  {
    hide Chars, Ws;
  }

  lemma {:induction false} WsTwice(t: string)
    requires Ws(t).Some?
    ensures Ws(Ws(t).value) == Ws(t)
  {
    if t != "" && IsWs(t[0]) {
      WsTwice(t[1..]);
    }
  }

  lemma BodyStarts(l: Lay, v: Json, rest: string)
    requires Shows(l, v)
    ensures var u := BodyText(l.body) + rest; u != "" && !Blank(u[..1]) && u[0] != '/' && u[0] != ']' && u[0] != '}'
  {
    hide Parsed, Spells, GlyphsText, ListText, TableText, Shows;
    var u := BodyText(l.body) + rest;
    NumeralStarts(l, v);
    assert u[..1][0] == u[0];
  }

  lemma NumeralStarts(l: Lay, v: Json)
    requires Shows(l, v)
    ensures l.body.Numeral? ==> l.body.digits != "" && (l.body.digits[0] == '-' || IsDigit(l.body.digits[0]))
    ensures l.body.Word? ==> l.body.v.Null? || l.body.v.Bool?
  {
    hide Parsed, Spells;
    if l.body.Numeral? {
      NumeralReads(l.body.digits, v.i, "");
    }
  }

  lemma TableSkips(lim: Limits, es: seq<Entry>, depth: nat, close: string)
    requires 0 < |es| && EntryShows(es[0])
    ensures var t := TableText(es, 0) + close;
            && Ws(t).Some? && Ws(t).value != "" && Ws(t).value[0] != '}'
            && Members(lim, Ws(t).value, depth, []) == Members(lim, t, depth, [])
  {
    hide TableText, LayText, Blank, GlyphsText, KeyText;
    var e := es[0];
    var tail := LayText(e.value) + (if |es| == 1 then close else "," + (TableText(es, 1) + close));
    TableSplits(es, 0, close);
    KeySplits(e, tail);
    var quoted := GlyphsText(e.gs) + ("\"" + (e.trail + (":" + tail)));
    Unblank('"', quoted);
    BlankIsSkipped(e.lead, "\"" + quoted);
    SkipsAgain(lim, TableText(es, 0) + close, depth);
  }

  lemma ObjectReads(lim: Limits, es: seq<Entry>, hollow: string, vs: seq<Member>, depth: nat, rest: string)
    requires Blank(hollow) && KeysAscend(vs) && |vs| <= lim.maxKeys
    requires forall i | 0 <= i < |vs| :: Printable(lim, vs[i].value, depth + 1)
    requires exists ms: seq<Member> :: multiset(ms) == multiset(vs) && Distinct(ms) && EntriesShow(es, ms)
    ensures var u := BodyText(Table(es, hollow)) + rest;
            u != "" && u[0] == '{' && ParseObject(lim, u[1..], depth) == Got(Obj(vs), rest)
    decreases es, |es| + 1
  {
    hide TableText, Members, Printable, Blank, Shows, Ws, EntryShows, Sorted, KeysAscend, Distinct;
    var ms: seq<Member> :| multiset(ms) == multiset(vs) && Distinct(ms) && EntriesShow(es, ms);
    assert |multiset(ms)| == |ms| && |multiset(vs)| == |vs|;
    SortedIs(ms);
    AscendingIsUnique(Sorted(ms), vs);
    var inner, close := if es == [] then hollow else TableText(es, 0), "}" + rest;
    EnclosedSplits('{', inner, '}', rest);
    if es == [] {
      Unblank('}', rest);
      BlankIsSkipped(hollow, close);
      assert close[1..] == rest && vs == [];
    } else {
      AllPrintable(lim, ms, vs, depth + 1);
      TableReads(lim, es, ms, 0, depth, rest);
      NothingSorted(ms);
      TableSkips(lim, es, depth, close);
    }
  }

  lemma AllPrintable(lim: Limits, ms: seq<Member>, vs: seq<Member>, depth: nat)
    requires multiset(ms) == multiset(vs) && forall i | 0 <= i < |vs| :: Printable(lim, vs[i].value, depth)
    ensures forall i | 0 <= i < |ms| :: Printable(lim, ms[i].value, depth)
  {
    hide Printable;
    forall i | 0 <= i < |ms| ensures Printable(lim, ms[i].value, depth) {
      assert ms[i] in multiset(vs);
    }
  }

  lemma NumeralIs(s: string)
    ensures BodyText(Numeral(s)) == s
  {
  }

  lemma NothingSorted(ms: seq<Member>)
    ensures Sorted(ms[..0]) == []
  {
  }

  /** A laid-out value is read, wherever it stands, as the value it is laid out for and no further. */
  lemma {:induction false} LayReads(lim: Limits, l: Lay, v: Json, depth: nat, rest: string)
    requires Shows(l, v) && Printable(lim, v, depth) && Ends(rest)
    ensures ParseValue(lim, l.lead + (BodyText(l.body) + rest), depth) == Got(v, rest)
    decreases l, 0
  {
    hide ListText, TableText, Chars, Number, Items, Members, Blank, Spells, GlyphsText, Ws, Parsed, Ends, BodyText;
    var u := BodyText(l.body) + rest;
    match l.body {
      case Word(w) => WordReads(w, rest);
      case Numeral(s) =>
        NumeralReads(s, v.i, rest);
        NumeralIs(s);
      case Chain(gs) => ChainReads(gs, v.s, rest);
      case List(items, hollow) => ArrayReads(lim, items, hollow, v.items, depth, rest);
      case Table(es, hollow) => ObjectReads(lim, es, hollow, v.members, depth, rest);
    }
    BodyStarts(l, v, rest);
    BlankIsSkipped(l.lead, u);
  }

  // ----- whatever is read was laid out -----

  lemma WordIsLaid(w: Json, s: string, u: string)
    requires w.Null? || w.Bool?
    requires s == (if w.Null? then "null" else if w.b then "true" else "false") && Literal(u, s, w).Got?
    ensures BodyText(Word(w)) == s && u == s + Literal(u, s, w).rest
  {
  }

  /** What a value was read from, but for the white space in front of it. */
  lemma BodyIsLaid(lim: Limits, u: string, depth: nat) returns (body: Body)
    requires ParseValue(lim, u, depth).Got? && Ws(u) == Some(u)
    ensures var r := ParseValue(lim, u, depth);
            Shows(Lay("", body, ""), r.value) && u == BodyText(body) + r.rest
    decreases |u|, 0
  {
    hide Chars, Number, Literal, BodyText, Shows, Ws, ParseArray, ParseObject;
    var r := ParseValue(lim, u, depth);
    if u[0] == '{' {
      assert u == ['{'] + u[1..];
      body := ObjectIsLaid(lim, u[1..], depth);
    } else if u[0] == '[' {
      assert u == ['['] + u[1..];
      body := ArrayIsLaid(lim, u[1..], depth);
    } else if u[0] == '"' {
      var gs := ReadIsSpelt(u[1..]);
      body := Chain(gs);
      ChainIsLaid(gs, r.value.s, u, r.rest);
    } else if u[0] == 't' || u[0] == 'f' || u[0] == 'n' {
      WordIsRead(lim, u, depth);
      body := Word(r.value);
    } else {
      ReadIsNumeral(u);
      body := Numeral(u[..|u| - |r.rest|]);
      NumeralIs(u[..|u| - |r.rest|]);
      NumeralShows(u[..|u| - |r.rest|], r.value.i);
    }
  }

  lemma WordIsRead(lim: Limits, u: string, depth: nat)
    requires ParseValue(lim, u, depth).Got? && Ws(u) == Some(u) && (u[0] == 't' || u[0] == 'f' || u[0] == 'n')
    ensures var r := ParseValue(lim, u, depth);
            Shows(Lay("", Word(r.value), ""), r.value) && u == BodyText(Word(r.value)) + r.rest
  {
    hide Ws;
    var r := ParseValue(lim, u, depth);
    var s := if u[0] == 't' then "true" else if u[0] == 'f' then "false" else "null";
    WordIsLaid(r.value, s, u);
  }

  lemma NumeralShows(s: string, i: int)
    requires Parsed(s) == Some(i)
    ensures Shows(Lay("", Numeral(s), ""), Int(i))
  {
    hide Parsed;
  }

  lemma ChainIsLaid(gs: seq<Glyph>, s: string, u: string, rest: string)
    requires Spells(gs, s) && u != "" && u[0] == '"' && u[1..] == GlyphsText(gs) + ("\"" + rest)
    ensures Shows(Lay("", Chain(gs), ""), Str(s)) && u == BodyText(Chain(gs)) + rest
  {
    hide Spells, GlyphsText;
    assert u == ['"'] + u[1..];
    Regroup("\"" + GlyphsText(gs), "\"", rest);
    Regroup("\"", GlyphsText(gs), "\"" + rest);
  }

  /** What a value was read from, with the white space in front of it. */
  lemma ReadIsLaid(lim: Limits, t: string, depth: nat) returns (l: Lay)
    requires ParseValue(lim, t, depth).Got?
    ensures var r := ParseValue(lim, t, depth); l.trail == "" && Shows(l, r.value) && t == LayText(l) + r.rest
    decreases |t|, 1
  {
    hide ParseValue, Shows, BodyText, Ws, Blank;
    SpacedValue(lim, t, depth);
    SkippedIsBlank(t);
    SkipsAgain(lim, t, depth);
    var u := Ws(t).value;
    var body := BodyIsLaid(lim, u, depth);
    l := Lay(t[..|t| - |u|], body, "");
    var rest := ParseValue(lim, t, depth).rest;
    NothingBlank();
    Relaid(l, ParseValue(lim, t, depth).value);
    LaySplits(l, rest);
    assert "" + rest == rest;
  }

  lemma SpacedValue(lim: Limits, t: string, depth: nat)
    requires ParseValue(lim, t, depth).Got?
    ensures Ws(t).Some?
  {
  }

  /** White space around a value does not change what it is laid out for. */
  lemma Relaid(l: Lay, v: Json)
    requires Shows(Lay("", l.body, ""), v) && Blank(l.lead) && Blank(l.trail)
    ensures Shows(l, v)
  {
    hide Parsed, Spells, Blank, KeysAscend, Distinct, EntriesShow;
  }

  lemma NothingBlank()
    ensures Blank("")
  {
  }

  /** What the items of an array were read from, after those read before. */
  lemma {:induction false} ItemsAreLaid(lim: Limits, t: string, depth: nat, acc: seq<Json>)
                                        returns (ls: seq<Lay>, vs: seq<Json>)
    requires Items(lim, t, depth, acc).Got?
    ensures var r := Items(lim, t, depth, acc);
            && ls != [] && r.value == Arr(acc + vs) && ListShows(ls, vs)
            && t == ListText(ls, 0) + ("]" + r.rest)
    decreases |t|, 2
  {
    hide ParseValue, Shows, LayText, Ws, Blank;
    var got := ParseValue(lim, t, depth + 1);
    var l := ReadIsLaid(lim, t, depth + 1);
    SkippedIsBlank(got.rest);
    var q := Ws(got.rest).value;
    var l' := l.(trail := got.rest[..|got.rest| - |q|]);
    Trailed(l, got.value, l'.trail);
    var r := Items(lim, t, depth, acc);
    Regroup(LayText(l), l'.trail, q);
    assert t == LayText(l') + q;
    assert q == [q[0]] + q[1..];
    if q[0] == ']' {
      ls, vs := [l'], [got.value];
      ListSplits(ls, 0, "]" + r.rest);
    } else {
      var more, others := ItemsAreLaid(lim, q[1..], depth, acc + [got.value]);
      ls, vs := [l'] + more, [got.value] + others;
      assert acc + [got.value] + others == acc + vs;
      ListGrows(l', more, "]" + r.rest);
    }
  }

  lemma Trailed(l: Lay, v: Json, trail: string)
    requires Shows(l, v) && l.trail == "" && Blank(trail)
    ensures Shows(l.(trail := trail), v) && LayText(l.(trail := trail)) == LayText(l) + trail
  {
    hide BodyText, Blank, Parsed, Spells, EntriesShow, Distinct, KeysAscend;
    assert LayText(l) == l.lead + BodyText(l.body);
  }

  ghost predicate ListShows(ls: seq<Lay>, vs: seq<Json>) {
    |ls| == |vs| && forall i | 0 <= i < |ls| :: Shows(ls[i], vs[i])
  }

  lemma {:induction false} ListTextFrom(l: Lay, ls: seq<Lay>, k: nat)
    requires k < |ls|
    ensures ListText([l] + ls, k + 1) == ListText(ls, k)
    decreases |ls| - k
  {
    hide LayText;
    if k + 1 < |ls| {
      ListTextFrom(l, ls, k + 1);
    }
  }

  lemma ListGrows(l: Lay, ls: seq<Lay>, close: string)
    requires ls != []
    ensures ListText([l] + ls, 0) + close == LayText(l) + ("," + (ListText(ls, 0) + close))
  {
    hide LayText;
    ListTextFrom(l, ls, 0);
    ListSplits([l] + ls, 0, close);
  }

  lemma ListIsShown(ls: seq<Lay>, vs: seq<Json>, hollow: string)
    requires ListShows(ls, vs) && Blank(hollow)
    ensures Shows(Lay("", List(ls, hollow), ""), Arr(vs))
  {
    hide Blank;
    NothingBlank();
  }

  lemma NoItemsAreLaid(t: string, lead: string, u: string, rest: string) returns (body: Body)
    requires t == lead + u && u == [']'] + rest && Blank(lead)
    ensures Shows(Lay("", body, ""), Arr([])) && ['['] + t == BodyText(body) + rest
  {
    body := List([], lead);
    ListIsShown([], [], lead);
    EnclosedSplits('[', lead, ']', rest);
  }

  lemma ArrayIsLaid(lim: Limits, t: string, depth: nat) returns (body: Body)
    requires ParseArray(lim, t, depth).Got?
    ensures var r := ParseArray(lim, t, depth);
            Shows(Lay("", body, ""), r.value) && ['['] + t == BodyText(body) + r.rest
    decreases |t|, 4
  {
    hide Items, Ws, Blank, ListText, Shows;
    SkippedIsBlank(t);
    var u, r := Ws(t).value, ParseArray(lim, t, depth);
    if u[0] == ']' {
      assert u == [u[0]] + u[1..];
      body := NoItemsAreLaid(t, t[..|t| - |u|], u, r.rest);
    } else {
      SkipsAgain(lim, t, depth);
      var ls, vs := ItemsAreLaid(lim, t, depth, []);
      body := List(ls, "");
      assert r == Items(lim, t, depth, []);
      assert [] + vs == vs;
      NothingBlank();
      ListIsShown(ls, vs, "");
      EnclosedSplits('[', ListText(ls, 0), ']', r.rest);
    }
  }

  /** What a key was read from, up to its colon. */
  lemma KeyIsLaid(lim: Limits, t: string, acc: seq<Member>) returns (e: Entry)
    requires Key(lim, t, acc).Got?
    ensures var r := Key(lim, t, acc);
            EntryShows(e) && e.key == r.value && t == KeyText(e) + r.rest && !HasKey(acc, e.key)
  {
    hide Chars, Spells, GlyphsText, Blank, HasKey, Ws, KeyText;
    SkippedIsBlank(t);
    var u := Ws(t).value;
    var c := Chars(u[1..]);
    var gs := ReadIsSpelt(u[1..]);
    SkippedIsBlank(c.rest);
    var q := Ws(c.rest).value;
    var lead, trail := t[..|t| - |u|], c.rest[..|c.rest| - |q|];
    e := Entry(lead, gs, c.value, trail, Lay("", Word(Null), ""));
    assert u == "\"" + u[1..] && q == ":" + q[1..];
    KeySplits(e, q[1..]);
  }

  lemma MembersGrow(acc: seq<Member>, m: Member, ms: seq<Member>)
    requires !HasKey(acc, m.key) && Distinct(ms) && forall i | 0 <= i < |ms| :: !HasKey(Insert(acc, m), ms[i].key)
    ensures Distinct([m] + ms) && forall i | 0 <= i < |ms| + 1 :: !HasKey(acc, ([m] + ms)[i].key)
    ensures multiset(Insert(acc, m)) + multiset(ms) == multiset(acc) + multiset([m] + ms)
  {
    hide Insert;
    InsertSame(acc, m);
    InsertHolds(acc, m);
    var now := Insert(acc, m);
    forall i | 0 <= i < |ms| ensures !HasKey(acc, ms[i].key) && ms[i].key != m.key {
      KeyInserted(acc, m, ms[i].key);
    }
  }

  lemma KeyInserted(acc: seq<Member>, m: Member, key: string)
    requires !HasKey(Insert(acc, m), key)
    ensures !HasKey(acc, key) && key != m.key
  {
    hide Insert;
    InsertHolds(acc, m);
    var now := Insert(acc, m);
    assert m in now;
    forall i | 0 <= i < |acc| ensures acc[i].key != key {
      assert acc[i] in now;
    }
  }

  lemma TableTextFrom(e: Entry, es: seq<Entry>, k: nat)
    requires k < |es|
    ensures TableText([e] + es, k + 1) == TableText(es, k)
    decreases |es| - k
  {
    hide LayText, KeyText;
    if k + 1 < |es| {
      TableTextFrom(e, es, k + 1);
    }
  }

  lemma TableGrows(e: Entry, es: seq<Entry>, close: string)
    requires es != []
    ensures TableText([e] + es, 0) + close == KeyText(e) + (LayText(e.value) + ("," + (TableText(es, 0) + close)))
  {
    hide LayText, KeyText;
    TableTextFrom(e, es, 0);
    TableSplits([e] + es, 0, close);
  }

  /** What the members of an object were read from, in the order of the text. */
  lemma {:induction false} MembersAreLaid(lim: Limits, t: string, depth: nat, acc: seq<Member>)
                                          returns (es: seq<Entry>, ms: seq<Member>)
    requires Members(lim, t, depth, acc).Got? && KeysAscend(acc)
    ensures var r := Members(lim, t, depth, acc);
            && es != [] && r.value.Obj? && EntriesShow(es, ms) && Distinct(ms)
            && (forall i | 0 <= i < |ms| :: !HasKey(acc, ms[i].key))
            && multiset(r.value.members) == multiset(acc) + multiset(ms) && KeysAscend(r.value.members)
            && t == TableText(es, 0) + ("}" + r.rest)
    decreases |t|, 2
  {
    hide ParseValue, Shows, LayText, Ws, Blank, Key, Insert, KeysAscend, HasKey, EntryShows, KeyText, Distinct;
    var key := Key(lim, t, acc);
    var e0 := KeyIsLaid(lim, t, acc);
    var got := ParseValue(lim, key.rest, depth + 1);
    var l := ReadIsLaid(lim, key.rest, depth + 1);
    SkippedIsBlank(got.rest);
    var q := Ws(got.rest).value;
    var l' := l.(trail := got.rest[..|got.rest| - |q|]);
    Trailed(l, got.value, l'.trail);
    var e, m := e0.(value := l'), Member(key.value, got.value);
    EntryAside(e0, e);
    var r, now := Members(lim, t, depth, acc), Insert(acc, m);
    InsertAscends(acc, m);
    Regroup(LayText(l), l'.trail, q);
    assert key.rest == LayText(l') + q;
    assert q == [q[0]] + q[1..];
    if q[0] == '}' {
      es, ms := [e], [m];
      NothingDistinct();
      MembersGrow(acc, m, []);
      assert [m] + [] == [m];
      TableSplits(es, 0, "}" + r.rest);
    } else {
      var es', ms' := MembersAreLaid(lim, q[1..], depth, now);
      es, ms := [e] + es', [m] + ms';
      MembersGrow(acc, m, ms');
      EntriesGrow(e, es', m, ms');
      TableGrows(e, es', "}" + r.rest);
    }
  }

  lemma NothingDistinct()
    ensures Distinct([])
  {
  }

  lemma EntryAside(a: Entry, b: Entry)
    requires EntryShows(a) && b == a.(value := b.value)
    ensures EntryShows(b) && KeyText(b) == KeyText(a)
  {
  }

  lemma EntriesGrow(e: Entry, es: seq<Entry>, m: Member, ms: seq<Member>)
    requires EntryShows(e) && m.key == e.key && Shows(e.value, m.value) && EntriesShow(es, ms)
    ensures EntriesShow([e] + es, [m] + ms)
  {
    hide EntryShows, Shows;
    var es', ms' := [e] + es, [m] + ms;
    forall i | 0 <= i < |es'|
      ensures EntryShows(es'[i]) && ms'[i].key == es'[i].key && Shows(es'[i].value, ms'[i].value)
    {
      if i > 0 {
        assert EntryShows(es[i - 1]);
      }
    }
  }

  lemma NoMembersAreLaid(t: string, lead: string, u: string, rest: string) returns (body: Body)
    requires t == lead + u && u == ['}'] + rest && Blank(lead)
    ensures Shows(Lay("", body, ""), Obj([])) && ['{'] + t == BodyText(body) + rest
  {
    body := Table([], lead);
    NothingBlank();
    NothingAscends();
    NothingShows();
    TableShows([], [], [], lead);
    EnclosedSplits('{', lead, '}', rest);
  }

  lemma ObjectIsLaid(lim: Limits, t: string, depth: nat) returns (body: Body)
    requires ParseObject(lim, t, depth).Got?
    ensures var r := ParseObject(lim, t, depth);
            Shows(Lay("", body, ""), r.value) && ['{'] + t == BodyText(body) + r.rest
    decreases |t|, 4
  {
    hide Members, Ws, Blank, TableText, KeysAscend, Distinct, EntriesShow, Shows;
    SkippedIsBlank(t);
    var u, r := Ws(t).value, ParseObject(lim, t, depth);
    var lead := t[..|t| - |u|];
    NothingBlank();
    NothingAscends();
    if u[0] == '}' {
      body := NoMembersAreLaid(t, lead, u, r.rest);
    } else {
      SkipsAgain(lim, t, depth);
      assert r == Members(lim, t, depth, []);
      var es, ms := MembersAreLaid(lim, t, depth, []);
      body := Table(es, "");
      TableShows(es, ms, r.value.members, "");
      EnclosedSplits('{', TableText(es, 0), '}', r.rest);
    }
  }

  lemma NothingShows()
    ensures EntriesShow([], []) && Distinct([])
  {
  }

  lemma TableShows(es: seq<Entry>, ms: seq<Member>, vs: seq<Member>, hollow: string)
    requires EntriesShow(es, ms) && Distinct(ms) && KeysAscend(vs) && multiset(ms) == multiset(vs) && Blank(hollow)
    ensures Shows(Lay("", Table(es, hollow), ""), Obj(vs))
  {
    hide EntriesShow, Distinct, KeysAscend;
  }

  // ----- documents -----

  /** The reader accepts exactly the texts laid out for a value within the limits, after a byte-order mark or none, and
      gives that value: white space between tokens, the order of an object's members and the spelling of a string's
      characters make no difference to it. */
  lemma DocumentsAreLaid(lim: Limits, t: string, v: Json)
    ensures Document(lim, t) == Some(v) <==>
            |t| <= lim.maxBytes && Printable(lim, v, 0)
            && exists l :: Shows(l, v)
                && (t == LayText(l) || t == [0xEF as char, 0xBB as char, 0xBF as char] + LayText(l))
  {
    hide Shows, Printable, LayText;
    if Document(lim, t) == Some(v) {
      var l := DocumentIsLaid(lim, t, v);
    }
    if |t| <= lim.maxBytes && Printable(lim, v, 0) {
      forall l | Shows(l, v) && (t == LayText(l) || t == [0xEF as char, 0xBB as char, 0xBF as char] + LayText(l))
        ensures Document(lim, t) == Some(v)
      {
        DocumentReads(lim, t, l, v);
      }
    }
  }

  lemma DocumentIsLaid(lim: Limits, t: string, v: Json) returns (l: Lay)
    requires Document(lim, t) == Some(v)
    ensures |t| <= lim.maxBytes && Printable(lim, v, 0)
    ensures Shows(l, v) && (t == LayText(l) || t == [0xEF as char, 0xBB as char, 0xBF as char] + LayText(l))
  {
    hide ParseValue, Shows, Ws, Blank, LayText, Printable;
    var s := WithoutBom(t);
    SkipsAgain(lim, s, 0);
    var l0 := ReadIsLaid(lim, s, 0);
    var r := ParseValue(lim, s, 0);
    SkippedIsBlank(r.rest);
    assert r.rest[..|r.rest|] == r.rest;
    l := l0.(trail := r.rest);
    Trailed(l0, v, r.rest);
    JsonRoundTrip.ValueIsPrintable(lim, s, 0);
    if s != t {
      assert t == [t[0], t[1], t[2]] + s;
    }
  }

  lemma DocumentReads(lim: Limits, t: string, l: Lay, v: Json)
    requires |t| <= lim.maxBytes && Printable(lim, v, 0)
    requires Shows(l, v) && (t == LayText(l) || t == [0xEF as char, 0xBB as char, 0xBF as char] + LayText(l))
    ensures Document(lim, t) == Some(v)
  {
    hide ParseValue, Shows, Printable, Blank, BodyText, Ws;
    LayIsBare(l, v);
    var s := LayText(l);
    assert WithoutBom(t) == s;
    LaySplits(l, "");
    assert s + "" == s && l.trail + "" == l.trail;
    ShowsBlank(l, v);
    TrailEnds(l.trail);
    LayReads(lim, l, v, 0, l.trail);
    BodyStarts(l, v, l.trail);
    BlankIsSkipped(l.lead, BodyText(l.body) + l.trail);
    SkipsAgain(lim, s, 0);
  }

  lemma TrailEnds(trail: string)
    requires Blank(trail)
    ensures Ends(trail) && Ws(trail) == Some("")
  {
    BlankIsSkipped(trail, "");
    assert trail + "" == trail;
    if trail != "" {
      assert trail[..1][0] == trail[0];
    }
  }

  /** A laid-out text does not begin with a byte-order mark. */
  lemma LayIsBare(l: Lay, v: Json)
    requires Shows(l, v)
    ensures LayText(l) != "" && LayText(l)[0] as int != 0xEF
  {
    hide Parsed, Spells, GlyphsText, ListText, TableText, Shows;
    NumeralStarts(l, v);
    ShowsBlank(l, v);
    var u := BodyText(l.body);
    assert u != "" && u[0] as int != 0xEF;
    assert LayText(l)[0] == if l.lead == "" then u[0] else l.lead[0];
  }

  // ----- white space -----

  /** The same tokens, with white space of any length wherever there may be some. */
  ghost predicate Respaced(a: Lay, b: Lay)
    decreases a
  {
    && Blank(b.lead) && Blank(b.trail)
    && match a.body
       case List(items, _) =>
         && b.body.List? && Blank(b.body.hollow) && |b.body.items| == |items|
         && forall i | 0 <= i < |items| :: Respaced(items[i], b.body.items[i])
       case Table(es, _) =>
         && b.body.Table? && Blank(b.body.hollow) && |b.body.entries| == |es|
         && forall i | 0 <= i < |es| ::
             && es[i].gs == b.body.entries[i].gs && es[i].key == b.body.entries[i].key
             && Blank(b.body.entries[i].lead) && Blank(b.body.entries[i].trail)
             && Respaced(es[i].value, b.body.entries[i].value)
       case _ => b.body == a.body
  }

  lemma {:induction false} RespacedShows(a: Lay, b: Lay, v: Json)
    requires Shows(a, v) && Respaced(a, b)
    ensures Shows(b, v)
    decreases a
  {
    hide Blank, Parsed, Spells, KeysAscend, Distinct;
    match a.body {
      case List(items, _) =>
        forall i | 0 <= i < |items| ensures Shows(b.body.items[i], v.items[i]) {
          RespacedShows(items[i], b.body.items[i], v.items[i]);
        }
      case Table(es, _) =>
        var ms: seq<Member> :| multiset(ms) == multiset(v.members) && Distinct(ms) && EntriesShow(es, ms);
        forall i | 0 <= i < |es| ensures Shows(b.body.entries[i].value, ms[i].value) {
          RespacedShows(es[i].value, b.body.entries[i].value, ms[i].value);
        }
        assert EntriesShow(b.body.entries, ms);
      case _ =>
    }
  }

  /** Canonical text is laid out, without white space; and put spaces, tabs, newlines and carriage returns between its
      tokens as you will, it is read as the same value. */
  lemma SpacesDoNotMatter(lim: Limits, v: Json)
    requires Printable(lim, v, 0)
    ensures exists l ::
              && Shows(l, v) && LayText(l) == Text(v)
              && forall l' | Respaced(l, l') && |LayText(l')| <= lim.maxBytes :: Document(lim, LayText(l')) == Some(v)
  {
    hide Shows, Printable, Text, LayText, Respaced, Document;
    var l := CanonicalIsLaid(lim, v);
    forall l' | Respaced(l, l') && |LayText(l')| <= lim.maxBytes ensures Document(lim, LayText(l')) == Some(v) {
      RespacedShows(l, l', v);
      DocumentReads(lim, LayText(l'), l', v);
    }
  }

  lemma CanonicalIsLaid(lim: Limits, v: Json) returns (l: Lay)
    requires Printable(lim, v, 0)
    ensures Shows(l, v) && LayText(l) == Text(v)
  {
    hide Shows, Text, LayText, ParseValue, Printable;
    JsonRoundTrip.TextStarts(v);
    assert Text(v) + "" == Text(v);
    JsonRoundTrip.ValueReadsBack(lim, v, 0, "");
    l := ReadIsLaid(lim, Text(v), 0);
    assert LayText(l) + "" == LayText(l);
  }
}
