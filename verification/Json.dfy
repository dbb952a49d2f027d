/** JSON values without floating point, and their canonical text. A char stands for one byte. */
module Json {
  import opened Decimal

  datatype Member = Member(key: string, value: Json)

  /** An object's members are kept in strictly ascending bytewise key order. */
  datatype Json =
    | Null
    | Bool(b: bool)
    | Int(i: int)
    | Str(s: string)
    | Arr(items: seq<Json>)
    | Obj(members: seq<Member>)

  datatype Limits = Limits(maxBytes: nat, maxDepth: nat, maxArray: nat, maxKeys: nat)

  // ----- keys -----

  /** Unsigned bytewise order; a proper prefix comes first. */
  predicate Less(a: string, b: string) {
    if b == "" then false
    else if a == "" then true
    else if a[0] != b[0] then a[0] < b[0]
    else Less(a[1..], b[1..])
  }

  lemma {:induction false} LessIsStrict(a: string, b: string)
    ensures Less(a, b) ==> !Less(b, a) && a != b
  {
    if a != "" && b != "" {
      LessIsStrict(a[1..], b[1..]);
    }
  }

  lemma {:induction false} LessIsTotal(a: string, b: string)
    ensures a == b || Less(a, b) || Less(b, a)
  {
    if a != "" && b != "" && a[0] == b[0] {
      LessIsTotal(a[1..], b[1..]);
      assert a == [a[0]] + a[1..] && b == [b[0]] + b[1..];
    }
  }

  lemma {:induction false} LessThen(a: string, b: string, c: string)
    requires Less(a, b) && Less(b, c)
    ensures Less(a, c)
  {
    if a != "" && a[0] == b[0] && b[0] == c[0] {
      LessThen(a[1..], b[1..], c[1..]);
    }
  }

  /** The order is that of the first byte in which two keys differ, or of one that ends first. */
  lemma {:induction false} LessIsBytewise(a: string, b: string)
    ensures Less(a, b) <==> exists k: nat ::
              k <= |a| && k < |b| && a[..k] == b[..k] && (k == |a| || a[k] < b[k])
  {
    if a != "" && b != "" && a[0] == b[0] {
      LessIsBytewise(a[1..], b[1..]);
      if Less(a[1..], b[1..]) {
        var k: nat :| k <= |a[1..]| && k < |b[1..]| && a[1..][..k] == b[1..][..k]
                      && (k == |a[1..]| || a[1..][k] < b[1..][k]);
        assert a[..k + 1] == [a[0]] + a[1..][..k] && b[..k + 1] == [b[0]] + b[1..][..k];
      }
      forall k: nat | k <= |a| && k < |b| && a[..k] == b[..k] && (k == |a| || a[k] < b[k])
        ensures Less(a[1..], b[1..])
      {
        assert k > 0;
        assert a[1..][..k - 1] == a[..k][1..] && b[1..][..k - 1] == b[..k][1..];
      }
    } else if Less(a, b) {
      assert a[..0] == b[..0];
    } else {
      forall k: nat ensures 0 < k <= |a| && k < |b| && a[..k] == b[..k] ==> a[0] == b[0] {
        FrontsAgree(a, b, k);
      }
    }
  }

  lemma FrontsAgree(a: string, b: string, k: nat)
    ensures 0 < k <= |a| && k < |b| && a[..k] == b[..k] ==> a[0] == b[0]
  {
    if 0 < k <= |a| && k < |b| && a[..k] == b[..k] {
      assert a[..k][0] == a[0] && b[..k][0] == b[0];
    }
  }

  ghost predicate KeysAscend(ms: seq<Member>) {
    forall i, j | 0 <= i < j < |ms| :: Less(ms[i].key, ms[j].key)
  }

  predicate HasKey(ms: seq<Member>, key: string) {
    exists i | 0 <= i < |ms| :: ms[i].key == key
  }

  /** Puts a member in its place. */
  function Insert(ms: seq<Member>, m: Member): seq<Member> {
    if ms == [] then [m]
    else if Less(ms[|ms| - 1].key, m.key) then ms + [m]
    else Insert(ms[..|ms| - 1], m) + [ms[|ms| - 1]]
  }

  lemma {:induction false} InsertHolds(ms: seq<Member>, m: Member)
    ensures |Insert(ms, m)| == |ms| + 1
    ensures forall x: Member :: x in Insert(ms, m) <==> x == m || x in ms
  {
    if ms != [] && !Less(ms[|ms| - 1].key, m.key) {
      InsertHolds(ms[..|ms| - 1], m);
      assert ms == ms[..|ms| - 1] + [ms[|ms| - 1]];
    }
  }

  lemma {:induction false} InsertAscends(ms: seq<Member>, m: Member)
    requires KeysAscend(ms) && !HasKey(ms, m.key)
    ensures KeysAscend(Insert(ms, m))
  {
    if ms == [] {
    } else {
      var init, last := ms[..|ms| - 1], ms[|ms| - 1];
      if Less(last.key, m.key) {
        forall i | 0 <= i < |ms| ensures Less(ms[i].key, m.key) {
          if i < |ms| - 1 {
            LessThen(ms[i].key, last.key, m.key);
          }
        }
      } else {
        assert last.key != m.key;
        LessIsTotal(last.key, m.key);
        InsertAscends(init, m);
        InsertHolds(init, m);
        var after := Insert(init, m);
        forall i | 0 <= i < |after| ensures Less(after[i].key, last.key) {
          assert after[i] in after;
          if after[i] != m {
            var k :| 0 <= k < |init| && init[k] == after[i];
          }
        }
      }
    }
  }

  // ----- canonical text -----

  function Hex(d: nat): char
    requires d < 16
  {
    if d < 10 then ('0' as int + d) as char else ('a' as int + d - 10) as char
  }

  function EscapeChar(c: char): string {
    if c == '"' then "\\\""
    else if c == '\\' then "\\\\"
    else if c as int == 8 then "\\b"
    else if c as int == 12 then "\\f"
    else if c == '\n' then "\\n"
    else if c == '\r' then "\\r"
    else if c == '\t' then "\\t"
    else if c as int < 0x20 then "\\u00" + [Hex(c as int / 16), Hex(c as int % 16)]
    else [c]
  }

  function Escaped(s: string): string {
    if s == "" then "" else EscapeChar(s[0]) + Escaped(s[1..])
  }

  function Quoted(s: string): string {
    "\"" + Escaped(s) + "\""
  }

  /** The text of items from the kth on, separated by commas. */
  function ItemsText(items: seq<Json>, k: nat): string
    requires k <= |items|
    decreases items, |items| - k
  {
    if k == |items| then ""
    else Text(items[k]) + (if k + 1 < |items| then "," + ItemsText(items, k + 1) else "")
  }

  function MembersText(ms: seq<Member>, k: nat): string
    requires k <= |ms|
    decreases ms, |ms| - k
  {
    if k == |ms| then ""
    else Quoted(ms[k].key) + ":" + Text(ms[k].value) + (if k + 1 < |ms| then "," + MembersText(ms, k + 1) else "")
  }

  function Text(v: Json): string
    decreases v
  {
    match v
    case Null => "null"
    case Bool(b) => if b then "true" else "false"
    case Int(i) => ToDecimal(i)
    case Str(s) => Quoted(s)
    case Arr(items) => "[" + ItemsText(items, 0) + "]"
    case Obj(ms) => "{" + MembersText(ms, 0) + "}"
  }

  // ----- the writer -----

  /** One more piece in front of what is still to come. */
  lemma Joined(done: string, sep: string, piece: string, rest: string, tail: string, all: string)
    requires done + sep + rest == all && rest == piece + tail
    ensures (done + sep + piece) + tail == all
  {
  }

  lemma Appended(out: string, done: string, sep: string, piece: string)
    ensures (out + done) + sep + piece == out + (done + sep + piece)
  {
  }

  lemma EscapedStep(s: string, i: nat)
    requires i < |s|
    ensures Escaped(s[i..]) == EscapeChar(s[i]) + Escaped(s[i + 1..])
  {
    assert s[i..][0] == s[i] && s[i..][1..] == s[i + 1..];
  }

  lemma EscapedEnds(s: string)
    ensures s[0..] == s && s[|s|..] == "" && Escaped("") == ""
  {
  }

  method EscapeInto(s: string, out: string) returns (out': string)
    ensures out' == out + Quoted(s)
  {
    hide Escaped, EscapeChar;
    EscapedEnds(s);
    var open := out + "\"";
    out' := open;
    ghost var done := "";
    for i := 0 to |s|
      invariant out' == open + done && done + Escaped(s[i..]) == Escaped(s)
    {
      EscapedStep(s, i);
      Joined(done, "", EscapeChar(s[i]), Escaped(s[i..]), Escaped(s[i + 1..]), Escaped(s));
      Appended(open, done, "", EscapeChar(s[i]));
      done := done + "" + EscapeChar(s[i]);
      out' := out' + EscapeChar(s[i]);
    }
    out' := out' + "\"";
  }

  method WriteItems(items: seq<Json>, out: string) returns (out': string)
    ensures out' == out + ItemsText(items, 0)
    decreases items, 0
  {
    hide Text;
    out' := out;
    var first := true;
    ghost var done := "";
    for k := 0 to |items|
      invariant (first <==> k == 0) && out' == out + done
      invariant done + (if 0 < k < |items| then "," else "") + ItemsText(items, k) == ItemsText(items, 0)
    {
      ghost var sep, before := if 0 < k then "," else "", out';
      if !first {
        out' := out' + ",";
      }
      first := false;
      out' := WriteCanonical(items[k], out');
      Appended(out, done, sep, Text(items[k]));
      assert out' == before + sep + Text(items[k]);
      Joined(done, sep, Text(items[k]), ItemsText(items, k), if k + 1 < |items| then "," + ItemsText(items, k + 1)
          else "", ItemsText(items, 0));
      done := done + sep + Text(items[k]);
    }
  }

  method WriteMembers(ms: seq<Member>, out: string) returns (out': string)
    ensures out' == out + MembersText(ms, 0)
    decreases ms, 0
  {
    hide Text, Quoted;
    out' := out;
    var first := true;
    ghost var done := "";
    for k := 0 to |ms|
      invariant (first <==> k == 0) && out' == out + done
      invariant done + (if 0 < k < |ms| then "," else "") + MembersText(ms, k) == MembersText(ms, 0)
    {
      ghost var sep, before := if 0 < k then "," else "", out';
      ghost var piece := Quoted(ms[k].key) + ":" + Text(ms[k].value);
      if !first {
        out' := out' + ",";
      }
      first := false;
      out' := WriteMember(ms[k], out');
      Appended(out, done, sep, piece);
      assert out' == before + sep + piece;
      Joined(done, sep, piece, MembersText(ms, k), if k + 1 < |ms| then "," + MembersText(ms, k + 1) else "",
          MembersText(ms, 0));
      done := done + sep + piece;
    }
  }

  method WriteMember(m: Member, out: string) returns (out': string)
    ensures out' == out + (Quoted(m.key) + ":" + Text(m.value))
    decreases m, 0
  {
    hide Text, Quoted;
    out' := EscapeInto(m.key, out);
    out' := out' + ":";
    out' := WriteCanonical(m.value, out');
  }

  /** Appends a value's canonical text. */
  method WriteCanonical(v: Json, out: string) returns (out': string)
    ensures out' == out + Text(v)
    decreases v, 1
  {
    match v {
      case Null => out' := out + "null";
      case Bool(b) => out' := out + if b then "true" else "false";
      case Int(i) => out' := out + ToDecimal(i);
      case Str(s) => out' := EscapeInto(s, out);
      case Arr(items) =>
        out' := WriteItems(items, out + "[");
        out' := out' + "]";
      case Obj(ms) =>
        out' := WriteMembers(ms, out + "{");
        out' := out' + "}";
    }
  }
}
