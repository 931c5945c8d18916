// JSON text as JSON.stringify produces it, and the proof that the text
// determines the value, key order included. The audit ledger hashes this text
// (backend/src/access/audit-log.service.ts).
module AuditJson {
  import opened Prelude

  predicate IsNumChar(c: char) {
    '0' <= c <= '9' || c == '-' || c == '+' || c == '.' || c == 'e' || c == 'E'
  }

  predicate IsNumText(s: string) {
    s != "" && ('0' <= s[0] <= '9' || s[0] == '-') && forall i | 0 <= i < |s| :: IsNumChar(s[i])
  }

  // The decimal text of a number.
  type NumText = s: string | IsNumText(s) witness "0"

  datatype Json =
    | Null
    | Bool(value: bool)
    | Num(text: NumText)
    | Str(chars: string)
    | Arr(items: Items)
    | Obj(members: Members)

  datatype Items = NoItem | Item(first: Json, more: Items)

  // Members in insertion order.
  datatype Members = NoMember | Member(key: string, val: Json, rest: Members)

  // -------- text --------

  function Hex(n: nat): char
    requires n < 16
  {
    "0123456789abcdef"[n]
  }

  function QuoteChar(c: char): string {
    if c == '\"' then "\\\""
    else if c == '\\' then "\\\\"
    else if c == 8 as char then "\\b"
    else if c == 9 as char then "\\t"
    else if c == 10 as char then "\\n"
    else if c == 12 as char then "\\f"
    else if c == 13 as char then "\\r"
    else if c < ' ' then "\\u00" + [Hex(c as int / 16), Hex(c as int % 16)]
    else [c]
  }

  // What an escape stands for, after section 7 of RFC 8259.
  function HexValue(c: char): Option<nat> {
    if '0' <= c <= '9' then Some(c as int - '0' as int)
    else if 'a' <= c <= 'f' then Some(c as int - 'a' as int + 10)
    else if 'A' <= c <= 'F' then Some(c as int - 'A' as int + 10)
    else None
  }

  function Unquote(s: string): Option<char> {
    if |s| == 1 then (if s[0] in {'\"', '\\'} || s[0] < ' ' then None else Some(s[0]))
    else if |s| == 2 && s[0] == '\\' then
      match s[1]
      case '\"' => Some('\"')
      case '\\' => Some('\\')
      case '/' => Some('/')
      case 'b' => Some(8 as char)
      case 't' => Some(9 as char)
      case 'n' => Some(10 as char)
      case 'f' => Some(12 as char)
      case 'r' => Some(13 as char)
      case _ => None
    else if |s| == 6 && s[..4] == "\\u00" && HexValue(s[4]).Some? && HexValue(s[5]).Some? then
      Some((HexValue(s[4]).value * 16 + HexValue(s[5]).value) as char)
    else None
  }

  // Every character is written so that a JSON reader gets it back.
  lemma QuoteCharReadsBack(c: char)
    ensures Unquote(QuoteChar(c)) == Some(c)
  {
    if c < ' ' && |QuoteChar(c)| == 6 {
      assert HexValue(Hex(c as int / 16)) == Some(c as int / 16);
      assert HexValue(Hex(c as int % 16)) == Some(c as int % 16);
      assert QuoteChar(c)[..4] == "\\u00";
    }
  }

  function QuoteChars(s: string): string {
    if s == "" then "" else QuoteChar(s[0]) + QuoteChars(s[1..])
  }

  function Quote(s: string): string {
    "\"" + QuoteChars(s) + "\""
  }

  function Stringify(j: Json): string {
    match j
    case Null => "null"
    case Bool(b) => if b then "true" else "false"
    case Num(text) => text
    case Str(s) => Quote(s)
    case Arr(items) => "[" + ItemsText(items)
    case Obj(members) => "{" + MembersText(members)
  }

  // The items and the closing bracket.
  function ItemsText(items: Items): string {
    match items
    case NoItem => "]"
    case Item(j, NoItem) => Stringify(j) + "]"
    case Item(j, more) => Stringify(j) + "," + ItemsText(more)
  }

  function MembersText(ms: Members): string {
    match ms
    case NoMember => "}"
    case Member(k, j, NoMember) => Quote(k) + ":" + Stringify(j) + "}"
    case Member(k, j, rest) => Quote(k) + ":" + Stringify(j) + "," + MembersText(rest)
  }

  // -------- the text is uniquely readable --------

  lemma SplitFirst(a: string, x: string, b: string, y: string)
    requires |a| == |b| && a + x == b + y
    ensures a == b && x == y
  {
    assert (a + x)[..|a|] == a && (b + y)[..|b|] == b;
    assert (a + x)[|a|..] == x && (b + y)[|b|..] == y;
  }

  lemma HexInjective(m: nat, n: nat)
    requires m < 16 && n < 16 && Hex(m) == Hex(n)
    ensures m == n
  {
  }

  // A control character with no short escape.
  predicate NeedsHex(c: char) {
    c < ' ' && c as int !in {8, 9, 10, 12, 13}
  }

  // How a quoted character begins: itself, or a backslash and a letter.
  lemma QuoteCharShape(c: char)
    ensures QuoteChar(c)[0] != '\"'
    ensures QuoteChar(c)[0] != '\\' ==> QuoteChar(c) == [c]
    ensures QuoteChar(c)[0] == '\\' ==> |QuoteChar(c)| >= 2
    ensures NeedsHex(c) <==> |QuoteChar(c)| == 6
    ensures |QuoteChar(c)| == 6 ==> QuoteChar(c)[1] == 'u' && QuoteChar(c)[0] == '\\'
    ensures |QuoteChar(c)| in {1, 2, 6}
    ensures |QuoteChar(c)| == 2 ==> QuoteChar(c)[0] == '\\' && QuoteChar(c)[1] != 'u'
  {
  }

  lemma QuoteCharPrefixFree(c: char, x: string, d: char, y: string)
    requires QuoteChar(c) + x == QuoteChar(d) + y
    ensures c == d && x == y
  {
    QuoteCharShape(c);
    QuoteCharShape(d);
    var p, q := QuoteChar(c), QuoteChar(d);
    assert (p + x)[0] == p[0] && (q + y)[0] == q[0];
    if p[0] == '\\' {
      assert (p + x)[1] == p[1] && (q + y)[1] == q[1];
    }
    assert |p| == |q|;
    SplitFirst(p, x, q, y);
    SameQuoteSameChar(c, d);
  }

  lemma SameQuoteSameChar(c: char, d: char)
    requires QuoteChar(c) == QuoteChar(d)
    ensures c == d
  {
    QuoteCharShape(c);
    QuoteCharShape(d);
    if NeedsHex(c) {
      assert QuoteChar(c)[4] == Hex(c as int / 16) && QuoteChar(c)[5] == Hex(c as int % 16);
      assert QuoteChar(d)[4] == Hex(d as int / 16) && QuoteChar(d)[5] == Hex(d as int % 16);
      HexInjective(c as int / 16, d as int / 16);
      HexInjective(c as int % 16, d as int % 16);
    }
  }

  function QuotedRest(s: string, x: string): string {
    QuoteChars(s) + ("\"" + x)
  }

  lemma Assoc(a: string, b: string, c: string)
    ensures a + b + c == a + (b + c)
  {
  }

  lemma QuotedRestShape(s: string, x: string)
    ensures QuotedRest(s, x) != ""
    ensures s == "" <==> QuotedRest(s, x)[0] == '\"'
    ensures s == "" ==> QuotedRest(s, x) == "\"" + x
    ensures s != "" ==> QuotedRest(s, x) == QuoteChar(s[0]) + QuotedRest(s[1..], x)
  {
    if s != "" {
      var q, rest := QuoteChar(s[0]), QuoteChars(s[1..]);
      QuoteCharShape(s[0]);
      Assoc(q, rest, "\"" + x);
      assert QuoteChars(s) == q + rest;
      assert QuotedRest(s, x)[0] == q[0];
    } else {
      assert QuotedRest(s, x) == "\"" + x;
    }
  }

  lemma {:induction false} QuoteCharsReadable(s: string, x: string, t: string, y: string)
    requires QuotedRest(s, x) == QuotedRest(t, y)
    ensures s == t && x == y
    decreases |s|
  {
    QuotedRestShape(s, x);
    QuotedRestShape(t, y);
    if s == "" {
      SplitFirst("\"", x, "\"", y);
    } else {
      QuoteCharPrefixFree(s[0], QuotedRest(s[1..], x), t[0], QuotedRest(t[1..], y));
      QuoteCharsReadable(s[1..], x, t[1..], y);
      assert s == [s[0]] + s[1..] && t == [t[0]] + t[1..];
    }
  }

  lemma QuoteReadable(s: string, x: string, t: string, y: string)
    requires Quote(s) + x == Quote(t) + y
    ensures s == t && x == y
  {
    assert Quote(s) + x == "\"" + QuotedRest(s, x) && Quote(t) + y == "\"" + QuotedRest(t, y);
    SplitFirst("\"", QuotedRest(s, x), "\"", QuotedRest(t, y));
    QuoteCharsReadable(s, x, t, y);
  }

  // What may follow a value: nothing that could continue a number.
  predicate Stops(x: string) {
    x == "" || !IsNumChar(x[0])
  }

  lemma NumNotLonger(a: NumText, x: string, b: NumText, y: string)
    requires Stops(x) && a + x == b + y
    ensures |b| <= |a|
  {
    var l := a + x;
    assert forall i | 0 <= i < |b| :: l[i] == b[i];
    assert x != "" ==> l[|a|] == x[0];
  }

  lemma NumReadable(a: NumText, x: string, b: NumText, y: string)
    requires Stops(x) && Stops(y) && a + x == b + y
    ensures a == b && x == y
  {
    NumNotLonger(a, x, b, y);
    NumNotLonger(b, y, a, x);
    SplitFirst(a, x, b, y);
  }

  function Kind(j: Json): nat {
    match j
    case Null => 0 case Bool(_) => 1 case Num(_) => 2 case Str(_) => 3 case Arr(_) => 4 case Obj(_) => 5
  }

  function KindOf(c: char): nat {
    if c == 'n' then 0 else if c == 't' || c == 'f' then 1 else if c == '\"' then 3
    else if c == '[' then 4 else if c == '{' then 5 else 2
  }

  lemma FirstCharTellsKind(j: Json, x: string)
    ensures Stringify(j) != "" && (Stringify(j) + x)[0] == Stringify(j)[0]
    ensures KindOf(Stringify(j)[0]) == Kind(j)
    ensures Stringify(j)[0] != ']'
  {
  }

  lemma ScalarReadable(a: Json, x: string, b: Json, y: string)
    requires Kind(a) == Kind(b) && Kind(a) < 4
    requires Stops(x) && Stops(y) && Stringify(a) + x == Stringify(b) + y
    ensures a == b && x == y
  {
    match a
    case Null => SplitFirst("null", x, "null", y);
    case Bool(v) =>
      assert (Stringify(a) + x)[0] == Stringify(a)[0] && (Stringify(b) + y)[0] == Stringify(b)[0];
      SplitFirst(Stringify(a), x, Stringify(b), y);
    case Num(t) => NumReadable(t, x, b.text, y);
    case Str(s) => QuoteReadable(s, x, b.chars, y);
  }

  // A composite is its bracket and the rest.
  lemma Opened(bracket: string, s: string, x: string, t: string, y: string)
    requires |bracket| == 1 && bracket + s + x == bracket + t + y
    ensures s + x == t + y
  {
    assert bracket + s + x == bracket + (s + x);
    assert bracket + t + y == bracket + (t + y);
    SplitFirst(bracket, s + x, bracket, t + y);
  }

  lemma {:induction false} JsonReadable(a: Json, x: string, b: Json, y: string)
    requires Stops(x) && Stops(y) && Stringify(a) + x == Stringify(b) + y
    ensures a == b && x == y
    decreases a
  {
    FirstCharTellsKind(a, x);
    FirstCharTellsKind(b, y);
    if Kind(a) < 4 {
      ScalarReadable(a, x, b, y);
    } else if a.Arr? {
      Opened("[", ItemsText(a.items), x, ItemsText(b.items), y);
      ItemsReadable(a.items, x, b.items, y);
    } else {
      Opened("{", MembersText(a.members), x, MembersText(b.members), y);
      MembersReadable(a.members, x, b.members, y);
    }
  }

  // Text after an item: the closing bracket, or a comma and the other items.
  function AfterItem(more: Items, x: string): string {
    if more.NoItem? then "]" + x else "," + ItemsText(more) + x
  }

  function AfterMember(rest: Members, x: string): string {
    if rest.NoMember? then "}" + x else "," + MembersText(rest) + x
  }

  lemma ItemsShape(a: Items, x: string)
    ensures ItemsText(a) + x != ""
    ensures a.NoItem? <==> (ItemsText(a) + x)[0] == ']'
    ensures a.NoItem? ==> ItemsText(a) + x == "]" + x
    ensures a.Item? ==> ItemsText(a) + x == Stringify(a.first) + AfterItem(a.more, x)
    ensures a.Item? ==> Stops(AfterItem(a.more, x))
  {
    if a.Item? {
      FirstCharTellsKind(a.first, AfterItem(a.more, x));
      if a.more.Item? {
        assert ItemsText(a) + x == Stringify(a.first) + ("," + ItemsText(a.more) + x);
      } else {
        assert ItemsText(a) + x == Stringify(a.first) + ("]" + x);
      }
    }
  }

  lemma MemberText(k: string, v: string, tail: string, x: string)
    ensures Quote(k) + ":" + v + tail + x == Quote(k) + (":" + v + (tail + x))
    ensures (Quote(k) + ":" + v + tail + x)[0] == '\"'
  {
  }

  lemma MembersShape(a: Members, x: string)
    ensures MembersText(a) + x != ""
    ensures a.NoMember? <==> (MembersText(a) + x)[0] == '}'
    ensures a.NoMember? ==> MembersText(a) + x == "}" + x
    ensures a.Member? ==> MembersText(a) + x == Quote(a.key) + (":" + Stringify(a.val) + AfterMember(a.rest, x))
    ensures a.Member? ==> Stops(AfterMember(a.rest, x))
  {
    if a.Member? {
      var v := Stringify(a.val);
      if a.rest.Member? {
        var tail := MembersText(a.rest);
        MemberText(a.key, v, "," + tail, x);
        assert MembersText(a) == Quote(a.key) + ":" + v + "," + tail;
        Assoc(Quote(a.key) + ":" + v, ",", tail);
        Assoc(",", tail, x);
      } else {
        MemberText(a.key, v, "}", x);
      }
    }
  }

  lemma {:induction false} ItemsReadable(a: Items, x: string, b: Items, y: string)
    requires Stops(x) && Stops(y) && ItemsText(a) + x == ItemsText(b) + y
    ensures a == b && x == y
    decreases a
  {
    ItemsShape(a, x);
    ItemsShape(b, y);
    if a.NoItem? {
      SplitFirst("]", x, "]", y);
    } else {
      JsonReadable(a.first, AfterItem(a.more, x), b.first, AfterItem(b.more, y));
      assert a.more.NoItem? <==> AfterItem(a.more, x)[0] == ']';
      assert b.more.NoItem? <==> AfterItem(b.more, y)[0] == ']';
      if a.more.NoItem? {
        SplitFirst("]", x, "]", y);
      } else {
        Opened(",", ItemsText(a.more), x, ItemsText(b.more), y);
        ItemsReadable(a.more, x, b.more, y);
      }
    }
  }

  lemma {:induction false} MembersReadable(a: Members, x: string, b: Members, y: string)
    requires Stops(x) && Stops(y) && MembersText(a) + x == MembersText(b) + y
    ensures a == b && x == y
    decreases a
  {
    MembersShape(a, x);
    MembersShape(b, y);
    if a.NoMember? {
      SplitFirst("}", x, "}", y);
    } else {
      var l, r := AfterMember(a.rest, x), AfterMember(b.rest, y);
      QuoteReadable(a.key, ":" + Stringify(a.val) + l, b.key, ":" + Stringify(b.val) + r);
      Opened(":", Stringify(a.val), l, Stringify(b.val), r);
      JsonReadable(a.val, l, b.val, r);
      assert a.rest.NoMember? <==> l[0] == '}';
      assert b.rest.NoMember? <==> r[0] == '}';
      if a.rest.NoMember? {
        SplitFirst("}", x, "}", y);
      } else {
        Opened(",", MembersText(a.rest), x, MembersText(b.rest), y);
        MembersReadable(a.rest, x, b.rest, y);
      }
    }
  }

  // Two values with the same text are the same value.
  lemma SameTextSameJson(a: Json, b: Json)
    requires Stringify(a) == Stringify(b)
    ensures a == b
  {
    assert Stringify(a) + "" == Stringify(b) + "";
    JsonReadable(a, "", b, "");
  }
}
