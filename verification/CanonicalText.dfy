/** JSON.stringify can be read back in one way only, so the texts of canonical-hash.ts and
    etag.ts, and their digests, tell apart exactly the values that are not alike. */
module CanonicalText {
  import opened JsText
  import opened CanonicalJson
  import opened Options

  // ---- JSON.stringify

  function HexDigit(n: nat): char
    requires n < 16
  {
    "0123456789abcdef"[n]
  }

  function Escape(c: char): string {
    if c == '"' then "\\\""
    else if c == '\\' then "\\\\"
    else if c == '\n' then "\\n"
    else if c == '\r' then "\\r"
    else if c == '\t' then "\\t"
    else if c == '\U{0008}' then "\\b"
    else if c == '\U{000C}' then "\\f"
    else if c < ' ' then
      var n := c as int;
      ['\\', 'u', '0', '0', HexDigit(n / 16), HexDigit(n % 16)]
    else [c]
  }

  /** What an escape stands for, by section 7 of RFC 8259. */
  function ReadEscape(e: string): Option<char> {
    if |e| == 1 then (if e[0] < ' ' || e[0] == '"' || e[0] == '\\' then None else Some(e[0]))
    else if |e| == 2 && e[0] == '\\' then
      match e[1]
      case '"' => Some('"')
      case '\\' => Some('\\')
      case '/' => Some('/')
      case 'b' => Some('\U{0008}')
      case 'f' => Some('\U{000C}')
      case 'n' => Some('\n')
      case 'r' => Some('\r')
      case 't' => Some('\t')
      case _ => None
    else if |e| == 6 && e[..4] == "\\u00" then ReadHex(e[4], e[5])
    else None
  }

  function ReadDigit(c: char): Option<nat> {
    if '0' <= c <= '9' then Some(c as nat - '0' as nat)
    else if 'a' <= c <= 'f' then Some(c as nat - 'a' as nat + 10)
    else if 'A' <= c <= 'F' then Some(c as nat - 'A' as nat + 10)
    else None
  }

  function ReadHex(high: char, low: char): Option<char> {
    var h, l := ReadDigit(high), ReadDigit(low);
    if h.Some? && l.Some? then
      assert h.value < 16 && l.value < 16;
      Some((16 * h.value + l.value) as char)
    else None
  }

  /** Every character is escaped as something that stands for it. */
  lemma EscapeStandsForItsCharacter(c: char)
    ensures ReadEscape(Escape(c)) == Some(c)
  {
    if c < ' ' && c !in "\n\r\t\U{0008}\U{000C}" {
      var n := c as int;
      assert Escape(c)[..4] == "\\u00";
      assert ReadDigit(HexDigit(n / 16)) == Some(n / 16) && ReadDigit(HexDigit(n % 16)) == Some(n % 16);
    }
  }

  /** The escaped characters and the closing quote. */
  function QuotedTail(s: string): string {
    if s == "" then "\"" else Escape(s[0]) + QuotedTail(s[1..])
  }

  function Quote(s: string): string {
    "\"" + QuotedTail(s)
  }

  function Stringify(v: Json): string
    decreases v
  {
    match v
    case Null => "null"
    case Bool(b) => if b then "true" else "false"
    case Num(text) => text
    case Str(s) => Quote(s)
    case Arr(items) =>
      if items == [] then "[]" else "[" + (Stringify(items[0]) + StringifyItems(items[1..]))
    case Obj(ms) =>
      if ms == [] then "{}" else "{" + (Quote(ms[0].key) + (":" + (Stringify(ms[0].value) + StringifyMembers(ms[1..]))))
  }

  /** The further items, each behind its comma, and the closing bracket. */
  function StringifyItems(items: seq<Json>): string
    decreases items
  {
    if items == [] then "]" else "," + (Stringify(items[0]) + StringifyItems(items[1..]))
  }

  function StringifyMembers(ms: seq<Member>): string
    decreases ms
  {
    if ms == [] then "}"
    else "," + (Quote(ms[0].key) + (":" + (Stringify(ms[0].value) + StringifyMembers(ms[1..]))))
  }

  // ---- reading the text back

  lemma Cut(head: string, x: string, y: string)
    requires head + x == head + y
    ensures x == y
  {
    assert x == (head + x)[|head|..];
    assert y == (head + y)[|head|..];
  }

  lemma Regroup(a: string, b: string, x: string)
    ensures (a + b) + x == a + (b + x)
  {
  }

  lemma EscapeStarts(c: char)
    ensures Escape(c) != "" && Escape(c)[0] != '"'
    ensures Escape(c)[0] == '\\' <==> |Escape(c)| > 1
  {
  }

  /** No escape is the beginning of another. */
  lemma EscapeReadable(c: char, d: char, x: string, y: string)
    requires Escape(c) + x == Escape(d) + y
    ensures c == d
  {
    var e, f := Escape(c), Escape(d);
    assert (e + x)[0] == e[0] && (f + y)[0] == f[0];
    if |e| > 1 {
      assert (e + x)[1] == e[1] && (f + y)[1] == f[1];
      if e[1] == 'u' {
        assert (e + x)[4] == e[4] && (f + y)[4] == f[4];
        assert (e + x)[5] == e[5] && (f + y)[5] == f[5];
        HexReadable(c as int / 16, d as int / 16);
        HexReadable(c as int % 16, d as int % 16);
      }
    }
  }

  lemma HexReadable(m: nat, n: nat)
    requires m < 16 && n < 16 && HexDigit(m) == HexDigit(n)
    ensures m == n
  {
  }

  lemma {:induction false} QuotedReadable(s: string, t: string, x: string, y: string)
    requires QuotedTail(s) + x == QuotedTail(t) + y
    ensures s == t && x == y
    decreases |s|
  {
    assert (QuotedTail(s) + x)[0] == QuotedTail(s)[0];
    assert (QuotedTail(t) + y)[0] == QuotedTail(t)[0];
    if s == "" || t == "" {
      if s != "" { EscapeStarts(s[0]); }
      if t != "" { EscapeStarts(t[0]); }
      Cut("\"", x, y);
    } else {
      Regroup(Escape(s[0]), QuotedTail(s[1..]), x);
      Regroup(Escape(t[0]), QuotedTail(t[1..]), y);
      EscapeReadable(s[0], t[0], QuotedTail(s[1..]) + x, QuotedTail(t[1..]) + y);
      Cut(Escape(s[0]), QuotedTail(s[1..]) + x, QuotedTail(t[1..]) + y);
      QuotedReadable(s[1..], t[1..], x, y);
      assert s == [s[0]] + s[1..] && t == [t[0]] + t[1..];
    }
  }

  lemma QuoteReadable(s: string, t: string, x: string, y: string)
    requires Quote(s) + x == Quote(t) + y
    ensures s == t && x == y
  {
    Regroup("\"", QuotedTail(s), x);
    Regroup("\"", QuotedTail(t), y);
    Cut("\"", QuotedTail(s) + x, QuotedTail(t) + y);
    QuotedReadable(s, t, x, y);
  }

  /** What may follow a value inside a JSON text. */
  predicate Delimited(x: string) {
    x == "" || x[0] == ',' || x[0] == ']' || x[0] == '}'
  }

  lemma NumberReadable(t: string, u: string, x: string, y: string)
    requires NumberText(t) && NumberText(u) && Delimited(x) && Delimited(y) && t + x == u + y
    ensures t == u && x == y
  {
    var z := t + x;
    assert forall i :: 0 <= i < |t| ==> z[i] == t[i];
    assert forall i :: 0 <= i < |u| ==> z[i] == u[i];
    assert |t| < |z| ==> z[|t|] == x[0];
    assert |u| < |z| ==> z[|u|] == y[0];
    assert |t| == |u|;
    assert t == z[..|t|] && u == z[..|u|];
    Cut(t, x, y);
  }

  /** The first character tells which kind of value is printed. */
  function KindOf(c: char): nat {
    match c
    case 'n' => 0 case 't' => 1 case 'f' => 2 case '"' => 3 case '[' => 4 case '{' => 5 case ']' => 7 case _ => 6
  }

  function Kind(v: Json): nat {
    match v
    case Null => 0
    case Bool(b) => if b then 1 else 2
    case Num(_) => 6
    case Str(_) => 3
    case Arr(_) => 4
    case Obj(_) => 5
  }

  lemma FirstChar(v: Json, x: string)
    requires WellFormed(v)
    ensures Stringify(v) + x != "" && KindOf((Stringify(v) + x)[0]) == Kind(v)
  {
    assert Stringify(v) != "" && (Stringify(v) + x)[0] == Stringify(v)[0];
  }

  lemma ItemsDelimited(items: seq<Json>, x: string)
    ensures Delimited(StringifyItems(items) + x)
  {
  }

  lemma MembersDelimited(ms: seq<Member>, x: string)
    ensures Delimited(StringifyMembers(ms) + x)
  {
  }

  /** Unique readability: a text begins with at most one value. */
  lemma {:induction false} Readable(v: Json, w: Json, x: string, y: string)
    requires WellFormed(v) && WellFormed(w) && Delimited(x) && Delimited(y)
    requires Stringify(v) + x == Stringify(w) + y
    ensures v == w && x == y
    decreases v, 1
  {
    FirstChar(v, x);
    FirstChar(w, y);
    match v
    case Null => Cut("null", x, y);
    case Bool(_) => Cut(Stringify(v), x, y);
    case Num(text) => NumberReadable(text, w.text, x, y);
    case Str(s) => QuoteReadable(s, w.s, x, y);
    case Arr(items) => ArrReadable(items, w.items, x, y);
    case Obj(ms) => ObjReadable(ms, w.members, x, y);
  }

  lemma {:induction false} ItemReadable(p: seq<Json>, q: seq<Json>, x: string, y: string)
    requires p != [] && q != [] && WellFormed(Arr(p)) && WellFormed(Arr(q))
    requires Stringify(p[0]) + (StringifyItems(p[1..]) + x) == Stringify(q[0]) + (StringifyItems(q[1..]) + y)
    ensures p == q && x == y
    decreases p, 0
  {
    ItemsDelimited(p[1..], x);
    ItemsDelimited(q[1..], y);
    Readable(p[0], q[0], StringifyItems(p[1..]) + x, StringifyItems(q[1..]) + y);
    ItemsReadable(p[1..], q[1..], x, y);
    assert p == [p[0]] + p[1..] && q == [q[0]] + q[1..];
  }

  lemma {:induction false} ItemsReadable(p: seq<Json>, q: seq<Json>, x: string, y: string)
    requires WellFormed(Arr(p)) && WellFormed(Arr(q))
    requires StringifyItems(p) + x == StringifyItems(q) + y
    ensures p == q && x == y
    decreases p, 1
  {
    assert (StringifyItems(p) + x)[0] == StringifyItems(p)[0];
    assert (StringifyItems(q) + y)[0] == StringifyItems(q)[0];
    if p == [] {
      Cut("]", x, y);
    } else {
      ItemRegroup(p, x);
      ItemRegroup(q, y);
      Cut(",", Stringify(p[0]) + (StringifyItems(p[1..]) + x), Stringify(q[0]) + (StringifyItems(q[1..]) + y));
      ItemReadable(p, q, x, y);
    }
  }

  lemma ItemRegroup(p: seq<Json>, x: string)
    requires p != []
    ensures StringifyItems(p) + x == "," + (Stringify(p[0]) + (StringifyItems(p[1..]) + x))
    ensures Stringify(Arr(p)) + x == "[" + (Stringify(p[0]) + (StringifyItems(p[1..]) + x))
  {
    Regroup(Stringify(p[0]), StringifyItems(p[1..]), x);
    Regroup(",", Stringify(p[0]) + StringifyItems(p[1..]), x);
    Regroup("[", Stringify(p[0]) + StringifyItems(p[1..]), x);
  }

  lemma {:induction false} ArrReadable(p: seq<Json>, q: seq<Json>, x: string, y: string)
    requires WellFormed(Arr(p)) && WellFormed(Arr(q))
    requires Stringify(Arr(p)) + x == Stringify(Arr(q)) + y
    ensures p == q && x == y
    decreases p, 2
  {
    ArrOpens(p, x);
    ArrOpens(q, y);
    assert (Stringify(Arr(p)) + x)[1] == (Stringify(Arr(q)) + y)[1];
    if p == [] {
      Cut("[]", x, y);
    } else {
      ItemRegroup(p, x);
      ItemRegroup(q, y);
      Cut("[", Stringify(p[0]) + (StringifyItems(p[1..]) + x), Stringify(q[0]) + (StringifyItems(q[1..]) + y));
      ItemReadable(p, q, x, y);
    }
  }

  lemma ArrOpens(p: seq<Json>, x: string)
    requires WellFormed(Arr(p))
    ensures |Stringify(Arr(p)) + x| > 1
    ensures (Stringify(Arr(p)) + x)[1] == ']' <==> p == []
  {
    if p != [] {
      ItemRegroup(p, x);
      FirstChar(p[0], StringifyItems(p[1..]) + x);
    }
  }

  function MemberText(m: Member, rest: string): string {
    Quote(m.key) + (":" + (Stringify(m.value) + rest))
  }

  lemma MemberRegroup(ms: seq<Member>, x: string)
    requires ms != []
    ensures StringifyMembers(ms) + x == "," + MemberText(ms[0], StringifyMembers(ms[1..]) + x)
    ensures Stringify(Obj(ms)) + x == "{" + MemberText(ms[0], StringifyMembers(ms[1..]) + x)
  {
    var k, v, t := Quote(ms[0].key), Stringify(ms[0].value), StringifyMembers(ms[1..]);
    Regroup(v, t, x);
    Regroup(":", v + t, x);
    Regroup(k, ":" + (v + t), x);
    Regroup(",", k + (":" + (v + t)), x);
    Regroup("{", k + (":" + (v + t)), x);
  }

  lemma {:induction false} MemberReadable(p: seq<Member>, q: seq<Member>, x: string, y: string)
    requires p != [] && q != [] && WellFormed(Obj(p)) && WellFormed(Obj(q))
    requires MemberText(p[0], StringifyMembers(p[1..]) + x) == MemberText(q[0], StringifyMembers(q[1..]) + y)
    ensures p == q && x == y
    decreases p, 0
  {
    var xs, ys := StringifyMembers(p[1..]) + x, StringifyMembers(q[1..]) + y;
    MembersDelimited(p[1..], x);
    MembersDelimited(q[1..], y);
    QuoteReadable(p[0].key, q[0].key, ":" + (Stringify(p[0].value) + xs), ":" + (Stringify(q[0].value) + ys));
    Cut(":", Stringify(p[0].value) + xs, Stringify(q[0].value) + ys);
    Readable(p[0].value, q[0].value, xs, ys);
    MembersReadable(p[1..], q[1..], x, y);
    assert p == [p[0]] + p[1..] && q == [q[0]] + q[1..];
  }

  lemma {:induction false} MembersReadable(p: seq<Member>, q: seq<Member>, x: string, y: string)
    requires WellFormed(Obj(p)) && WellFormed(Obj(q))
    requires StringifyMembers(p) + x == StringifyMembers(q) + y
    ensures p == q && x == y
    decreases p, 1
  {
    assert (StringifyMembers(p) + x)[0] == StringifyMembers(p)[0];
    assert (StringifyMembers(q) + y)[0] == StringifyMembers(q)[0];
    if p == [] {
      Cut("}", x, y);
    } else {
      MemberRegroup(p, x);
      MemberRegroup(q, y);
      Cut(",", MemberText(p[0], StringifyMembers(p[1..]) + x), MemberText(q[0], StringifyMembers(q[1..]) + y));
      MemberReadable(p, q, x, y);
    }
  }

  lemma {:induction false} ObjReadable(p: seq<Member>, q: seq<Member>, x: string, y: string)
    requires WellFormed(Obj(p)) && WellFormed(Obj(q))
    requires Stringify(Obj(p)) + x == Stringify(Obj(q)) + y
    ensures p == q && x == y
    decreases p, 2
  {
    ObjOpens(p, x);
    ObjOpens(q, y);
    assert (Stringify(Obj(p)) + x)[1] == (Stringify(Obj(q)) + y)[1];
    if p == [] {
      Cut("{}", x, y);
    } else {
      MemberRegroup(p, x);
      MemberRegroup(q, y);
      Cut("{", MemberText(p[0], StringifyMembers(p[1..]) + x), MemberText(q[0], StringifyMembers(q[1..]) + y));
      MemberReadable(p, q, x, y);
    }
  }

  lemma ObjOpens(p: seq<Member>, x: string)
    ensures |Stringify(Obj(p)) + x| > 1
    ensures (Stringify(Obj(p)) + x)[1] == '}' <==> p == []
  {
    if p != [] {
      MemberRegroup(p, x);
      assert MemberText(p[0], StringifyMembers(p[1..]) + x)[0] == '"';
    }
  }

  /** JSON.stringify is injective. */
  lemma StringifyInjective(v: Json, w: Json)
    requires WellFormed(v) && WellFormed(w) && Stringify(v) == Stringify(w)
    ensures v == w
  {
    assert Stringify(v) + "" == Stringify(v) && Stringify(w) + "" == Stringify(w);
    Readable(v, w, "", "");
  }
}
