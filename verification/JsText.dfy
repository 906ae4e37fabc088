/** The string operations of JavaScript that several components rely on. */
module JsText {

  /** White space and line terminators, as String.prototype.trim removes them. */
  predicate IsSpace(c: char): (r: bool)
    ensures '!' <= c <= '~' ==> !r
    ensures c in " \t\r\n" ==> r
  {
    || c == ' ' || c == '\t' || c == '\n' || c == '\r' || c == '\U{000B}' || c == '\U{000C}'
    || c == '\U{00A0}' || c == '\U{FEFF}' || c == '\U{1680}' || '\U{2000}' <= c <= '\U{200A}'
    || c == '\U{2028}' || c == '\U{2029}' || c == '\U{202F}' || c == '\U{205F}' || c == '\U{3000}'
  }

  function TrimStart(s: string): string {
    if s != "" && IsSpace(s[0]) then TrimStart(s[1..]) else s
  }

  function TrimEnd(s: string): string {
    if s != "" && IsSpace(s[|s| - 1]) then TrimEnd(s[..|s| - 1]) else s
  }

  function Trim(s: string): string {
    TrimEnd(TrimStart(s))
  }

  predicate Trimmed(s: string) {
    s == "" || (!IsSpace(s[0]) && !IsSpace(s[|s| - 1]))
  }

  lemma TrimStartFacts(s: string)
    ensures TrimStart(s) == "" || !IsSpace(TrimStart(s)[0])
    ensures forall c :: c in TrimStart(s) ==> c in s
  {
  }

  lemma TrimEndFacts(s: string)
    ensures TrimEnd(s) <= s
    ensures TrimEnd(s) == "" || !IsSpace(TrimEnd(s)[|TrimEnd(s)| - 1])
  {
  }

  /** Trimming yields a trimmed string and adds no character; trimmed strings are its fixpoints. */
  lemma TrimFacts(s: string)
    ensures Trimmed(Trim(s))
    ensures forall c :: c in Trim(s) ==> c in s
    ensures Trimmed(s) <==> Trim(s) == s
  {
    TrimStartFacts(s);
    TrimEndFacts(TrimStart(s));
  }

  predicate Blank(s: string) {
    forall i :: 0 <= i < |s| ==> IsSpace(s[i])
  }

  /** `s` is `t` with only white space around it. */
  ghost predicate Pads(s: string, t: string) {
    exists a, b :: Blank(a) && Blank(b) && s == a + t + b
  }

  lemma {:induction false} TrimStartTakesBlanks(s: string) returns (a: string)
    ensures Blank(a) && s == a + TrimStart(s)
    decreases |s|
  {
    a := "";
    if s != "" && IsSpace(s[0]) {
      var rest := TrimStartTakesBlanks(s[1..]);
      a := [s[0]] + rest;
    }
  }

  lemma {:induction false} TrimEndTakesBlanks(s: string) returns (b: string)
    ensures Blank(b) && s == TrimEnd(s) + b
    decreases |s|
  {
    b := "";
    if s != "" && IsSpace(s[|s| - 1]) {
      var rest := TrimEndTakesBlanks(s[..|s| - 1]);
      b := rest + [s[|s| - 1]];
    }
  }

  lemma {:induction false} TrimStartOf(a: string, t: string)
    requires Blank(a) && (t == "" || !IsSpace(t[0]))
    ensures TrimStart(a + t) == t
    decreases |a|
  {
    if a == "" {
      assert a + t == t;
    } else {
      assert (a + t)[0] == a[0] && (a + t)[1..] == a[1..] + t;
      TrimStartOf(a[1..], t);
    }
  }

  lemma {:induction false} TrimEndOf(t: string, b: string)
    requires Blank(b) && (t == "" || !IsSpace(t[|t| - 1]))
    ensures TrimEnd(t + b) == t
    decreases |b|
  {
    if b == "" {
      assert t + b == t;
    } else {
      var s := t + b;
      assert s[|s| - 1] == b[|b| - 1] && s[..|s| - 1] == t + b[..|b| - 1];
      TrimEndOf(t, b[..|b| - 1]);
    }
  }

  /** Trimming a padded trimmed text gives that text. */
  lemma TrimOfPadded(a: string, t: string, b: string)
    requires Blank(a) && Blank(b) && Trimmed(t)
    ensures Trim(a + t + b) == t
  {
    if t == "" {
      assert a + t + b == (a + b) + "";
      TrimStartOf(a + b, "");
    } else {
      assert a + t + b == a + (t + b) && (t + b)[0] == t[0];
      TrimStartOf(a, t + b);
      TrimEndOf(t, b);
    }
  }

  /** Trimming takes away white space at the ends and nothing else: the result is the one
      trimmed text of which the string is a padded copy. */
  lemma TrimIffPads(s: string, t: string)
    ensures Trim(s) == t <==> Trimmed(t) && Pads(s, t)
  {
    TrimFacts(s);
    var a := TrimStartTakesBlanks(s);
    var b := TrimEndTakesBlanks(TrimStart(s));
    assert s == a + Trim(s) + b;
    if Trimmed(t) && Pads(s, t) {
      var a', b' :| Blank(a') && Blank(b') && s == a' + t + b';
      TrimOfPadded(a', t, b');
    }
  }

  lemma TrimIsIdempotent(s: string)
    ensures Trim(Trim(s)) == Trim(s)
  {
    TrimFacts(s);
    TrimFacts(Trim(s));
  }

  lemma TrimIgnoresLeadingBlank(s: string)
    ensures Trim(" " + s) == Trim(s)
  {
    assert (" " + s)[1..] == s;
  }

  lemma ConcatTrimmed(a: string, b: string)
    requires Trimmed(a) && Trimmed(b)
    ensures Trimmed(a + b)
  {
  }

  function StartsWith(s: string, prefix: string): bool {
    prefix <= s
  }

  /** String.prototype.split with a one-character separator. */
  function Split(s: string, separator: char): (parts: seq<string>)
    ensures parts != []
  {
    var i := IndexOfChar(s, separator);
    if i < 0 then [s] else [s[..i]] + Split(s[i + 1..], separator)
  }

  function IndexOfChar(s: string, c: char): (i: int)
    ensures -1 <= i < |s|
    ensures i >= 0 ==> s[i] == c && c !in s[..i]
    ensures i < 0 ==> c !in s
  {
    if s == "" then -1
    else if s[0] == c then 0
    else
      var i := IndexOfChar(s[1..], c);
      if i < 0 then -1 else i + 1
  }

  lemma SplitSingle(s: string, separator: char)
    requires separator !in s
    ensures Split(s, separator) == [s]
  {
  }

  lemma SplitFirst(head: string, tail: string, separator: char)
    requires separator !in head
    ensures Split(head + [separator] + tail, separator) == [head] + Split(tail, separator)
  {
    var s := head + [separator] + tail;
    var i := IndexOfChar(s, separator);
    assert s[|head|] == separator;
    assert forall k :: 0 <= k < |head| ==> s[k] == head[k];
    assert forall k :: 0 <= k < i ==> s[..i][k] == s[k];
    assert i == |head|;
    assert s[..i] == head && s[i + 1..] == tail;
  }

  predicate NoBar(s: string) {
    '|' !in s
  }

  /** A text is cut at the first separator in one way only. */
  lemma CutOnce(head: string, tail: string, head': string, tail': string, separator: char)
    requires separator !in head && separator !in head'
    requires head + [separator] + tail == head' + [separator] + tail'
    ensures head == head' && tail == tail'
  {
    SplitFirst(head, tail, separator);
    SplitFirst(head', tail', separator);
    var s, n := head + [separator] + tail, |head| + 1;
    assert head == Split(s, separator)[0] == head';
    assert tail == s[n..] == (head' + [separator] + tail')[n..] == tail';
  }

  lemma SplitParts(s: string, separator: char)
    ensures forall part :: part in Split(s, separator) ==> separator !in part && forall c :: c in part ==> c in s
  {
    var i := IndexOfChar(s, separator);
    if i >= 0 {
      SplitParts(s[i + 1..], separator);
    }
  }

  function Join(parts: seq<string>, separator: string): string {
    if parts == [] then ""
    else if |parts| == 1 then parts[0]
    else parts[0] + separator + Join(parts[1..], separator)
  }

  function Concat(parts: seq<string>): string {
    if parts == [] then "" else parts[0] + Concat(parts[1..])
  }

  lemma ConcatAppend(parts: seq<string>, last: string)
    ensures Concat(parts + [last]) == Concat(parts) + last
  {
    if parts == [] {
      assert [last][1..] == [];
      assert parts + [last] == [last];
    } else {
      assert (parts + [last])[1..] == parts[1..] + [last];
      ConcatAppend(parts[1..], last);
    }
  }
}
