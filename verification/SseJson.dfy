/** The data of an event is JSON text, which always fits on one line of the event stream: the
    route's frames come back from parser and proxy whatever the payload. */
module SseJson {
  import opened CanonicalJson
  import opened CanonicalText
  import opened JsText
  import opened Options
  import W = SseWire

  /** No newline inside, no space at the end. */
  predicate OneLine(s: string) {
    '\n' !in s && s != "" && !IsSpace(s[|s| - 1])
  }

  lemma Together(a: string, b: string)
    requires '\n' !in a && OneLine(b)
    ensures OneLine(a + b)
  {
  }

  lemma EscapeOneLine(c: char)
    ensures '\n' !in Escape(c)
  {
    if c < ' ' {
      assert HexDigit(c as int / 16) != '\n' && HexDigit(c as int % 16) != '\n';
    }
  }

  lemma {:induction false} QuotedOneLine(s: string)
    ensures OneLine(QuotedTail(s))
    decreases |s|
  {
    if s != "" {
      QuotedOneLine(s[1..]);
      EscapeOneLine(s[0]);
      Together(Escape(s[0]), QuotedTail(s[1..]));
    }
  }

  lemma QuoteOneLine(s: string)
    ensures OneLine(Quote(s))
  {
    QuotedOneLine(s);
    Together("\"", QuotedTail(s));
  }

  lemma {:induction false} JsonOneLine(v: Json)
    requires WellFormed(v)
    ensures OneLine(Stringify(v))
    decreases v, 1
  {
    match v
    case Str(s) => QuoteOneLine(s);
    case Arr(items) => if items != [] { ItemOneLine("[", items); }
    case Obj(ms) => if ms != [] { MemberOneLine("{", ms); }
    case _ =>
  }

  lemma {:induction false} ItemOneLine(open: string, items: seq<Json>)
    requires '\n' !in open && items != [] && WellFormed(Arr(items))
    ensures OneLine(open + (Stringify(items[0]) + StringifyItems(items[1..])))
    decreases items, 0
  {
    JsonOneLine(items[0]);
    ItemsOneLine(items[1..]);
    Together(Stringify(items[0]), StringifyItems(items[1..]));
    Together(open, Stringify(items[0]) + StringifyItems(items[1..]));
  }

  lemma {:induction false} ItemsOneLine(items: seq<Json>)
    requires WellFormed(Arr(items))
    ensures OneLine(StringifyItems(items))
    decreases items, 1
  {
    if items != [] {
      ItemOneLine(",", items);
    }
  }

  lemma {:induction false} MemberOneLine(open: string, ms: seq<Member>)
    requires '\n' !in open && ms != [] && WellFormed(Obj(ms))
    ensures OneLine(open + (Quote(ms[0].key) + (":" + (Stringify(ms[0].value) + StringifyMembers(ms[1..])))))
    decreases ms, 0
  {
    var text := Stringify(ms[0].value) + StringifyMembers(ms[1..]);
    QuoteOneLine(ms[0].key);
    JsonOneLine(ms[0].value);
    MembersOneLine(ms[1..]);
    Together(Stringify(ms[0].value), StringifyMembers(ms[1..]));
    Together(":", text);
    Together(Quote(ms[0].key), ":" + text);
    Together(open, Quote(ms[0].key) + (":" + text));
  }

  lemma {:induction false} MembersOneLine(ms: seq<Member>)
    requires WellFormed(Obj(ms))
    ensures OneLine(StringifyMembers(ms))
    decreases ms, 1
  {
    if ms != [] {
      MemberOneLine(",", ms);
    }
  }

  /** JSON text is one trimmed line. */
  lemma JsonIsAField(v: Json)
    requires WellFormed(v)
    ensures W.Field(Stringify(v))
  {
    JsonOneLine(v);
    FirstChar(v, "");
    assert Stringify(v) + "" == Stringify(v);
  }

  datatype Written = Published(id: string, kind: string, data: Json) | Keepalive

  predicate Plain(w: Written) {
    w.Published? ==> W.Field(w.id) && w.id != "" && W.Field(w.kind) && WellFormed(w.data)
  }

  /** frame() and the keepalive timer. */
  function OutputOf(w: Written): W.Output {
    match w
    case Published(id, kind, data) => W.Event(id, kind, Stringify(data))
    case Keepalive => W.Ping
  }

  function Outputs(ws: seq<Written>): (r: seq<W.Output>)
    ensures |r| == |ws| && forall i :: 0 <= i < |ws| ==> r[i] == OutputOf(ws[i])
  {
    seq(|ws|, i requires 0 <= i < |ws| => OutputOf(ws[i]))
  }

  /** End to end: any events and keepalives, with any JSON data, written by the route, cut
      anywhere, parsed and re-printed by the proxy, cut anywhere again and parsed by the browser,
      arrive complete and in order. */
  lemma EventsReachTheBrowser(ws: seq<Written>, upstream: seq<string>, downstream: seq<string>)
    requires forall i :: 0 <= i < |ws| ==> Plain(ws[i])
    requires Concat(upstream) == W.Print(Outputs(ws))
    requires Concat(downstream) == W.ReprintAll(W.Drain(Concat(upstream)).0)
    ensures W.Drain(Concat(downstream)) == (W.MessagesOf(Outputs(ws)), "")
  {
    var outputs := Outputs(ws);
    forall i | 0 <= i < |outputs| ensures W.Printable(outputs[i]) && (outputs[i].Event? ==> outputs[i].id != "") {
      assert Plain(ws[i]);
      if ws[i].Published? {
        JsonIsAField(ws[i].data);
      }
    }
    W.PrintedEventsSurviveTheProxy(outputs, upstream, downstream);
  }

  /** And the data that arrives stands for one payload only. */
  lemma DataTellsPayloadsApart(id: string, kind: string, v: Json, w: Json)
    requires WellFormed(v) && WellFormed(w)
    ensures W.MessagesOf([OutputOf(Published(id, kind, v))]) == W.MessagesOf([OutputOf(Published(id, kind, w))]) <==> v == w
  {
    var a, b := [OutputOf(Published(id, kind, v))], [OutputOf(Published(id, kind, w))];
    assert a[1..] == [] && b[1..] == [];
    assert W.MessagesOf(a) == [W.SseMessage(Some(id), kind, Stringify(v))];
    assert W.MessagesOf(b) == [W.SseMessage(Some(id), kind, Stringify(w))];
    if Stringify(v) == Stringify(w) {
      StringifyInjective(v, w);
    }
  }
}
