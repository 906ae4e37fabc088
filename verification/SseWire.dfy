/** The event-stream format on the wire: the printer of events-stream.ts, the incremental
    parser of clientFactory.ts and the re-printing proxy of tenantStream.ts. */
module SseWire {
  import opened JsText
  import opened Options

  datatype SseMessage = SseMessage(id: Option<string>, event: string, data: string)

  // ---- printing

  /** What the route writes: an event, its data already in JSON, or a keepalive comment. */
  datatype Output = Event(id: string, kind: string, data: string) | Ping

  function Frame(o: Output): string {
    match o
    case Event(id, kind, data) => "id: " + id + "\nevent: " + kind + "\ndata: " + data + "\n\n"
    case Ping => ": ping\n\n"
  }

  function Print(outputs: seq<Output>): string {
    if outputs == [] then "" else Frame(outputs[0]) + Print(outputs[1..])
  }

  /** The proxy's text for one parsed message. */
  function Reprint(m: SseMessage): string {
    (if m.id.Some? && m.id.value != "" then "id: " + m.id.value + "\n" else "")
    + "event: " + m.event + "\ndata: " + m.data + "\n\n"
  }

  function ReprintAll(messages: seq<SseMessage>): string {
    if messages == [] then "" else Reprint(messages[0]) + ReprintAll(messages[1..])
  }

  // ---- parsing

  function ParseLine(m: SseMessage, line: string): SseMessage {
    if StartsWith(line, "id:") then m.(id := Some(Trim(line[3..])))
    else if StartsWith(line, "event:") then m.(event := Trim(line[6..]))
    else if StartsWith(line, "data:") then m.(data := m.data + Trim(line[5..]))
    else m
  }

  function ParseLines(m: SseMessage, lines: seq<string>): SseMessage
    decreases |lines|
  {
    if lines == [] then m else ParseLines(ParseLine(m, lines[0]), lines[1..])
  }

  const EMPTY_MESSAGE := SseMessage(None, "message", "")

  function ParseFrame(raw: string): SseMessage {
    ParseLines(EMPTY_MESSAGE, Split(raw, '\n'))
  }

  predicate Skipped(raw: string) {
    raw == "" || raw[0] == ':'
  }

  /** indexOf('\n\n'). */
  function BlankLine(s: string): (i: int)
    ensures i < 0 ==> i == -1
    ensures i >= 0 ==> i + 2 <= |s| && s[i] == '\n' && s[i + 1] == '\n'
  {
    if |s| < 2 then -1
    else if s[0] == '\n' && s[1] == '\n' then 0
    else
      var i := BlankLine(s[1..]);
      if i < 0 then -1 else i + 1
  }

  function Taken(raw: string): seq<SseMessage> {
    if Skipped(raw) then [] else [ParseFrame(raw)]
  }

  /** What the inner loop makes of a buffer: the messages, and what stays in the buffer. */
  function Drain(buffer: string): (seq<SseMessage>, string)
    decreases |buffer|
  {
    var i := BlankLine(buffer);
    if i < 0 then ([], buffer)
    else
      var rest := Drain(buffer[i + 2..]);
      (Taken(buffer[..i]) + rest.0, rest.1)
  }

  method ParseRaw(raw: string) returns (msg: SseMessage)
    ensures msg == ParseFrame(raw)
  {
    msg := EMPTY_MESSAGE;
    var lines := Split(raw, '\n');
    for i := 0 to |lines|
      invariant ParseLines(msg, lines[i..]) == ParseFrame(raw)
    {
      var line := lines[i];
      if "id:" <= line {
        msg := msg.(id := Some(Trim(line[3..])));
      } else if "event:" <= line {
        msg := msg.(event := Trim(line[6..]));
      } else if "data:" <= line {
        msg := msg.(data := msg.data + Trim(line[5..]));
      }
      assert lines[i..][1..] == lines[i + 1..];
    }
  }

  /** The inner loop: takes the finished frames off the buffer. */
  method TakeFrames(text: string) returns (messages: seq<SseMessage>, buffer: string)
    ensures (messages, buffer) == Drain(text)
  {
    messages, buffer := [], text;
    var split := BlankLine(buffer);
    assert [] + Drain(text).0 == Drain(text).0;
    while split >= 0
      invariant split == BlankLine(buffer)
      invariant (messages + Drain(buffer).0, Drain(buffer).1) == Drain(text)
      decreases |buffer|
    {
      NextFrame(buffer, messages);
      var raw := buffer[..split];
      buffer := buffer[split + 2..];
      split := BlankLine(buffer);
      if raw != "" && raw[0] != ':' {
        var msg := ParseRaw(raw);
        messages := messages + [msg];
      } else {
        assert messages + [] == messages;
      }
    }
    assert messages + [] == messages;
  }

  lemma NextFrame(buffer: string, messages: seq<SseMessage>)
    requires BlankLine(buffer) >= 0
    ensures var i := BlankLine(buffer); var rest := Drain(buffer[i + 2..]);
      && Drain(buffer).1 == rest.1
      && messages + Drain(buffer).0 == (messages + Taken(buffer[..i])) + rest.0
  {
    DrainOpens(buffer);
    Reassociate(messages, Taken(buffer[..BlankLine(buffer)]), Drain(buffer[BlankLine(buffer) + 2..]).0);
  }

  /** The parser's loop over the chunks it is given: what it yields and keeps depends only
      on the text, not on where it was cut. */
  method CreateEventStream(chunks: seq<string>) returns (messages: seq<SseMessage>, buffer: string)
    ensures (messages, buffer) == Drain(Concat(chunks))
  {
    messages, buffer := [], "";
    for i := 0 to |chunks|
      invariant (messages, buffer) == Drain(Concat(chunks[..i]))
    {
      ConcatAppend(chunks[..i], chunks[i]);
      assert chunks[..i] + [chunks[i]] == chunks[..i + 1];
      DrainInPieces(Concat(chunks[..i]), chunks[i]);
      var taken;
      taken, buffer := TakeFrames(buffer + chunks[i]);
      messages := messages + taken;
    }
    assert chunks[..|chunks|] == chunks;
  }

  /** The proxy's loop. */
  method TenantStream(upstream: seq<SseMessage>) returns (text: string)
    ensures text == ReprintAll(upstream)
  {
    text := "";
    for i := 0 to |upstream|
      invariant text + ReprintAll(upstream[i..]) == ReprintAll(upstream)
    {
      NextReprint(upstream, i, text);
      text := text + Reprint(upstream[i]);
    }
  }

  lemma NextReprint(upstream: seq<SseMessage>, i: nat, text: string)
    requires i < |upstream|
    ensures text + ReprintAll(upstream[i..]) == (text + Reprint(upstream[i])) + ReprintAll(upstream[i + 1..])
  {
    assert upstream[i..][1..] == upstream[i + 1..];
  }

  // ---- chunks

  /** It is the first blank line. */
  lemma {:induction false} BlankLineIsFirst(s: string, j: nat)
    requires j + 1 < |s| && s[j] == '\n' && s[j + 1] == '\n'
    ensures 0 <= BlankLine(s) <= j
    decreases |s|
  {
    if j > 0 {
      BlankLineIsFirst(s[1..], j - 1);
    }
  }

  lemma BlankLineStable(a: string, b: string)
    requires BlankLine(a) >= 0
    ensures BlankLine(a + b) == BlankLine(a)
  {
    var i, j := BlankLine(a), BlankLine(a + b);
    assert (a + b)[i] == a[i] && (a + b)[i + 1] == a[i + 1];
    BlankLineIsFirst(a + b, i);
    assert (a + b)[j] == a[j] && (a + b)[j + 1] == a[j + 1];
    BlankLineIsFirst(a, j);
  }

  lemma DrainOpens(a: string)
    requires BlankLine(a) >= 0
    ensures Drain(a).0 == Taken(a[..BlankLine(a)]) + Drain(a[BlankLine(a) + 2..]).0
    ensures Drain(a).1 == Drain(a[BlankLine(a) + 2..]).1
  {
  }

  lemma DrainWaits(a: string, b: string)
    requires BlankLine(a) < 0
    ensures Drain(a).1 == a && Drain(a + b).0 == Drain(a).0 + Drain(a + b).0
  {
    assert [] + Drain(a + b).0 == Drain(a + b).0;
  }

  lemma CutsAgree(a: string, b: string, i: nat)
    requires i + 2 <= |a|
    ensures (a + b)[..i] == a[..i] && (a + b)[i + 2..] == a[i + 2..] + b
  {
  }

  lemma DrainStep(a: string, b: string)
    requires BlankLine(a) >= 0
    ensures Drain(a + b).0 == Taken(a[..BlankLine(a)]) + Drain(a[BlankLine(a) + 2..] + b).0
    ensures Drain(a + b).1 == Drain(a[BlankLine(a) + 2..] + b).1
  {
    var i := BlankLine(a);
    BlankLineStable(a, b);
    CutsAgree(a, b, i);
    DrainOpens(a + b);
  }

  lemma Reassociate(head: seq<SseMessage>, first: seq<SseMessage>, second: seq<SseMessage>)
    ensures head + (first + second) == (head + first) + second
  {
  }

  lemma DrainFurther(a: string, b: string, whole: (seq<SseMessage>, string), first: (seq<SseMessage>, string),
                     second: (seq<SseMessage>, string))
    requires BlankLine(a) >= 0
    requires var rest := a[BlankLine(a) + 2..]; whole == Drain(rest + b) && first == Drain(rest)
    requires whole == (first.0 + second.0, second.1)
    ensures Drain(a + b) == (Drain(a).0 + second.0, second.1) && Drain(a).1 == first.1
  {
    DrainStep(a, b);
    DrainOpens(a);
    Reassociate(Taken(a[..BlankLine(a)]), first.0, second.0);
  }

  /** Draining a text in two pieces is draining it at once. */
  lemma {:induction false} DrainInPieces(a: string, b: string)
    ensures Drain(a + b).0 == Drain(a).0 + Drain(Drain(a).1 + b).0
    ensures Drain(a + b).1 == Drain(Drain(a).1 + b).1
    decreases |a|
  {
    var i := BlankLine(a);
    if i < 0 {
      DrainWaits(a, b);
    } else {
      DrainInPieces(a[i + 2..], b);
      DrainFurther(a, b, Drain(a[i + 2..] + b), Drain(a[i + 2..]), Drain(Drain(a[i + 2..]).1 + b));
    }
  }

  // ---- one frame

  /** A frame's lines: no blank line inside, none begun at the end. */
  ghost predicate OneFrame(f: string) {
    && (forall i :: 0 <= i < |f| - 1 ==> !(f[i] == '\n' && f[i + 1] == '\n'))
    && (f == "" || f[|f| - 1] != '\n')
  }

  lemma DrainFrame(f: string, rest: string)
    requires OneFrame(f)
    ensures var tail := Drain(rest);
      Drain(f + "\n\n" + rest) == (Taken(f) + tail.0, tail.1)
  {
    var s := f + "\n\n" + rest;
    var i := BlankLine(s);
    assert s[|f|] == '\n' && s[|f| + 1] == '\n';
    BlankLineIsFirst(s, |f|);
    assert forall k :: 0 <= k < |f| ==> s[k] == f[k];
    assert i == |f|;
    assert s[..i] == f && s[i + 2..] == rest;
  }

  lemma LineThenFrame(line: string, f: string)
    requires '\n' !in line && OneFrame(f) && f != "" && f[0] != '\n'
    ensures OneFrame(line + "\n" + f)
  {
    var s := line + "\n" + f;
    forall i | 0 <= i < |s| - 1 ensures !(s[i] == '\n' && s[i + 1] == '\n') {
      if i < |line| {
        assert s[i] == line[i];
      } else if i == |line| {
        assert s[i + 1] == f[0];
      } else {
        assert s[i] == f[i - |line| - 1] && s[i + 1] == f[i - |line|];
      }
    }
  }

  predicate Field(s: string) {
    '\n' !in s && Trimmed(s)
  }

  /** The lines of a frame: an optional id, the event, the data. */
  function Body(id: Option<string>, kind: string, data: string): string {
    (if id.Some? then "id: " + id.value + "\n" else "") + ("event: " + kind + "\n" + ("data: " + data))
  }

  lemma BodyIsOneFrame(id: Option<string>, kind: string, data: string)
    requires (id.Some? ==> '\n' !in id.value) && '\n' !in kind && '\n' !in data
    ensures OneFrame(Body(id, kind, data)) && !Skipped(Body(id, kind, data))
  {
    var tail := "event: " + kind + "\n" + ("data: " + data);
    LineThenFrame("event: " + kind, "data: " + data);
    if id.Some? {
      LineThenFrame("id: " + id.value, tail);
      assert Body(id, kind, data) == ("id: " + id.value) + "\n" + tail;
    } else {
      assert Body(id, kind, data) == tail;
    }
  }

  lemma ParseFieldLine(m: SseMessage, value: string)
    requires Trimmed(value)
    ensures ParseLine(m, "id: " + value) == m.(id := Some(value))
    ensures ParseLine(m, "event: " + value) == m.(event := value)
    ensures ParseLine(m, "data: " + value) == m.(data := m.data + value)
  {
    var idLine, eventLine, dataLine := "id: " + value, "event: " + value, "data: " + value;
    TrimFacts(value);
    TrimIgnoresLeadingBlank(value);
    assert idLine[3..] == eventLine[6..] == dataLine[5..] == " " + value;
    assert idLine[0] == 'i' && eventLine[0] == 'e' && dataLine[0] == 'd';
  }

  lemma ParseBody(id: Option<string>, kind: string, data: string)
    requires (id.Some? ==> Field(id.value)) && Field(kind) && Field(data)
    ensures ParseFrame(Body(id, kind, data)) == SseMessage(id, kind, data)
  {
    var l2, l3 := "event: " + kind, "data: " + data;
    SplitSingle(l3, '\n');
    SplitFirst(l2, l3, '\n');
    assert Split(l2 + "\n" + l3, '\n') == [l2] + [l3] == [l2, l3];
    var m := if id.Some? then EMPTY_MESSAGE.(id := id) else EMPTY_MESSAGE;
    ParseFieldLine(m, kind);
    ParseFieldLine(m.(event := kind), data);
    assert [l3][1..] == [] && [l2, l3][1..] == [l3];
    assert ParseLines(m, [l2, l3]) == ParseLines(ParseLine(m, l2), [l3]) == ParseLines(ParseLine(ParseLine(m, l2), l3), []);
    assert "" + data == data;
    if id.Some? {
      var l1 := "id: " + id.value;
      SplitFirst(l1, l2 + "\n" + l3, '\n');
      assert Body(id, kind, data) == l1 + "\n" + (l2 + "\n" + l3);
      ParseFieldLine(EMPTY_MESSAGE, id.value);
      assert ([l1] + [l2, l3])[1..] == [l2, l3];
    } else {
      assert Body(id, kind, data) == l2 + "\n" + l3;
    }
  }

  // ---- the main results

  predicate Printable(o: Output) {
    o.Event? ==> Field(o.id) && Field(o.kind) && Field(o.data)
  }

  function MessagesOf(outputs: seq<Output>): seq<SseMessage> {
    if outputs == [] then []
    else (match outputs[0]
          case Event(id, kind, data) => [SseMessage(Some(id), kind, data)]
          case Ping => []) + MessagesOf(outputs[1..])
  }

  lemma FrameDrains(id: Option<string>, kind: string, data: string, rest: string)
    requires (id.Some? ==> Field(id.value)) && Field(kind) && Field(data)
    ensures Drain(Body(id, kind, data) + "\n\n" + rest) == ([SseMessage(id, kind, data)] + Drain(rest).0, Drain(rest).1)
  {
    BodyIsOneFrame(id, kind, data);
    ParseBody(id, kind, data);
    DrainFrame(Body(id, kind, data), rest);
  }

  lemma FrameIsBody(id: string, kind: string, data: string)
    ensures Frame(Event(id, kind, data)) == Body(Some(id), kind, data) + "\n\n"
  {
  }

  lemma PingDrains(rest: string)
    ensures Drain(Frame(Ping) + rest) == Drain(rest)
  {
    var ping := ": ping";
    assert ping[0] == ':';
    assert OneFrame(ping) by {
      assert forall i :: 0 <= i < |ping| ==> ping[i] != '\n';
    }
    DrainFrame(ping, rest);
    assert Frame(Ping) == ping + "\n\n";
    assert [] + Drain(rest).0 == Drain(rest).0;
  }

  lemma {:induction false} PrintedTextDrains(outputs: seq<Output>)
    requires forall i :: 0 <= i < |outputs| ==> Printable(outputs[i])
    ensures Drain(Print(outputs)) == (MessagesOf(outputs), "")
    decreases |outputs|
  {
    if outputs != [] {
      var o, rest := outputs[0], Print(outputs[1..]);
      PrintedTextDrains(outputs[1..]);
      if o.Event? {
        FrameIsBody(o.id, o.kind, o.data);
        FrameDrains(Some(o.id), o.kind, o.data, rest);
      } else {
        PingDrains(rest);
        assert [] + MessagesOf(outputs[1..]) == MessagesOf(outputs[1..]);
      }
    }
  }

  /** Round trip: printing any events and pings, cutting the text anywhere and parsing it
      chunk by chunk gives exactly those events, in order, and leaves nothing behind. */
  lemma PrintParseRoundTrip(outputs: seq<Output>, chunks: seq<string>)
    requires forall i :: 0 <= i < |outputs| ==> Printable(outputs[i])
    requires Concat(chunks) == Print(outputs)
    ensures Drain(Concat(chunks)) == (MessagesOf(outputs), "")
  {
    PrintedTextDrains(outputs);
  }

  ghost predicate Parsed(m: SseMessage) {
    (m.id.Some? ==> Field(m.id.value)) && Field(m.event) && Field(m.data)
  }

  lemma ParseLinesParsed(m: SseMessage, lines: seq<string>)
    requires Parsed(m) && forall i :: 0 <= i < |lines| ==> '\n' !in lines[i]
    ensures Parsed(ParseLines(m, lines))
    decreases |lines|
  {
    if lines != [] {
      var line := lines[0];
      var m' := ParseLine(m, line);
      if StartsWith(line, "id:") {
        TrimFacts(line[3..]);
      } else if StartsWith(line, "event:") {
        TrimFacts(line[6..]);
      } else if StartsWith(line, "data:") {
        TrimFacts(line[5..]);
        ConcatTrimmed(m.data, Trim(line[5..]));
      }
      assert Parsed(m');
      ParseLinesParsed(m', lines[1..]);
    }
  }

  lemma TakenIsParsed(raw: string)
    ensures forall m :: m in Taken(raw) ==> Parsed(m)
  {
    SplitParts(raw, '\n');
    ParseLinesParsed(EMPTY_MESSAGE, Split(raw, '\n'));
  }

  /** Whatever the upstream sends, the parser's messages have trimmed one-line fields. */
  lemma {:induction false} ParserYieldsFields(text: string)
    ensures forall m :: m in Drain(text).0 ==> Parsed(m)
    decreases |text|
  {
    var i := BlankLine(text);
    if i >= 0 {
      ParserYieldsFields(text[i + 2..]);
      TakenIsParsed(text[..i]);
    }
  }

  /** The proxy drops an empty id and keeps everything else. */
  function Forwarded(m: SseMessage): SseMessage {
    if m.id == Some("") then m.(id := None) else m
  }

  function ForwardAll(messages: seq<SseMessage>): seq<SseMessage> {
    if messages == [] then [] else [Forwarded(messages[0])] + ForwardAll(messages[1..])
  }

  lemma ReprintIsBody(m: SseMessage)
    ensures Reprint(m) == Body(Forwarded(m).id, m.event, m.data) + "\n\n"
  {
  }

  lemma {:induction false} ReprintedDrains(messages: seq<SseMessage>)
    requires forall i :: 0 <= i < |messages| ==> Parsed(messages[i])
    ensures Drain(ReprintAll(messages)) == (ForwardAll(messages), "")
    decreases |messages|
  {
    if messages != [] {
      var m := messages[0];
      assert Parsed(m);
      ReprintedDrains(messages[1..]);
      ReprintIsBody(m);
      FrameDrains(Forwarded(m).id, m.event, m.data, ReprintAll(messages[1..]));
    }
  }

  /** The proxy is transparent for ANY upstream text, well formed or not, however it and the
      proxy's output are cut: the browser parses what the proxy parsed, less empty ids. */
  lemma ProxyIsTransparent(upstream: seq<string>, downstream: seq<string>)
    requires Concat(downstream) == ReprintAll(Drain(Concat(upstream)).0)
    ensures Drain(Concat(downstream)) == (ForwardAll(Drain(Concat(upstream)).0), "")
  {
    var messages := Drain(Concat(upstream)).0;
    ParserYieldsFields(Concat(upstream));
    assert forall i :: 0 <= i < |messages| ==> messages[i] in messages;
    ReprintedDrains(messages);
  }

  lemma {:induction false} ForwardAllIsIdentity(messages: seq<SseMessage>)
    ensures ForwardAll(messages) == messages <==> forall i :: 0 <= i < |messages| ==> messages[i].id != Some("")
    decreases |messages|
  {
    if messages != [] {
      var first, rest := messages[0], messages[1..];
      ForwardAllIsIdentity(rest);
      assert ForwardAll(messages)[1..] == ForwardAll(rest);
      assert ForwardAll(messages) == messages <==> Forwarded(first) == first && ForwardAll(rest) == rest;
      assert forall i :: 1 <= i < |messages| ==> messages[i] == rest[i - 1];
      assert forall i :: 0 <= i < |rest| ==> rest[i] == messages[i + 1];
    }
  }

  /** End to end: events with non-empty ids come out of the proxy exactly as the broker's
      route printed them. */
  lemma PrintedEventsSurviveTheProxy(outputs: seq<Output>, upstream: seq<string>, downstream: seq<string>)
    requires forall i :: 0 <= i < |outputs| ==> Printable(outputs[i]) && (outputs[i].Event? ==> outputs[i].id != "")
    requires Concat(upstream) == Print(outputs) && Concat(downstream) == ReprintAll(Drain(Concat(upstream)).0)
    ensures Drain(Concat(downstream)) == (MessagesOf(outputs), "")
  {
    PrintParseRoundTrip(outputs, upstream);
    ProxyIsTransparent(upstream, downstream);
    MessagesHaveIds(outputs);
    ForwardAllIsIdentity(MessagesOf(outputs));
  }

  lemma MessagesHaveIds(outputs: seq<Output>)
    requires forall i :: 0 <= i < |outputs| ==> outputs[i].Event? ==> outputs[i].id != ""
    ensures forall i :: 0 <= i < |MessagesOf(outputs)| ==> MessagesOf(outputs)[i].id != Some("")
  {
  }

  // ---- frames of other senders

  lemma ThreeLines(l1: string, l2: string, l3: string)
    requires '\n' !in l1 && '\n' !in l2 && '\n' !in l3
    ensures Split(l1 + "\n" + (l2 + "\n" + l3), '\n') == [l1, l2, l3]
  {
    SplitSingle(l3, '\n');
    SplitFirst(l2, l3, '\n');
    SplitFirst(l1, l2 + "\n" + l3, '\n');
    assert [l1] + ([l2] + [l3]) == [l1, l2, l3];
  }

  lemma ParseThree(m: SseMessage, l1: string, l2: string, l3: string)
    ensures ParseLines(m, [l1, l2, l3]) == ParseLine(ParseLine(ParseLine(m, l1), l2), l3)
  {
    var m1 := ParseLine(m, l1);
    var m2 := ParseLine(m1, l2);
    assert [l1, l2, l3][1..] == [l2, l3] && [l2, l3][1..] == [l3] && [l3][1..] == [];
    assert ParseLines(m, [l1, l2, l3]) == ParseLines(m1, [l2, l3]) == ParseLines(m2, [l3]) == ParseLines(ParseLine(m2, l3), []);
  }

  /** Without an event line a frame is a "message"; data lines are joined with nothing between them;
      lines of other fields are passed over. */
  lemma OtherFrames(a: string, b: string, other: string)
    requires Field(a) && Field(b) && '\n' !in other
    requires !StartsWith(other, "id:") && !StartsWith(other, "event:") && !StartsWith(other, "data:")
    ensures ParseFrame("data: " + a + "\n" + (other + "\n" + ("data: " + b))) == SseMessage(None, "message", a + b)
  {
    var m, l1, l3 := SseMessage(None, "message", ""), "data: " + a, "data: " + b;
    ThreeLines(l1, other, l3);
    ParseThree(m, l1, other, l3);
    ParseFieldLine(m, a);
    assert "" + a == a;
    ParseFieldLine(m.(data := a), b);
  }
}
