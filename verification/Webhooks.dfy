/** Webhook signatures: the header that sign.ts builds and verify.ts takes apart. HMAC-SHA-256
    (section 2 of RFC 2104) is a parameter: mac(secret, text) is its digest in hex. */
module Webhooks {
  import opened Decimal
  import opened JsText
  import opened Options

  // ---- sign.ts

  function DigitChar(d: nat): (c: char)
    requires d < 10
    ensures IsDigit(c) && DigitOf(c) == d
  {
    "0123456789"[d]
  }

  /** String(n), for a whole number printed without an exponent. */
  function NatText(n: nat): (s: string)
    ensures s != "" && Digits(s) && WholeValue(s) == n
  {
    if n < 10 then
      var c := DigitChar(n);
      assert [c][..0] == "" && WholeValue([c][..0]) == 0;
      [c]
    else
      var s := NatText(n / 10) + [DigitChar(n % 10)];
      assert s[..|s| - 1] == NatText(n / 10);
      s
  }

  function SignedText(timestamp: nat, body: string): string {
    NatText(timestamp) + "." + body
  }

  function SignWebhookPayload(mac: (string, string) -> string, secret: string, timestamp: nat, body: string): string {
    mac(secret, SignedText(timestamp, body))
  }

  function Labelled(signatures: seq<string>): (r: seq<string>)
    ensures |r| == |signatures| && forall i :: 0 <= i < |r| ==> r[i] == "v1=" + signatures[i]
  {
    seq(|signatures|, i requires 0 <= i < |signatures| => "v1=" + signatures[i])
  }

  function BuildSignatureHeader(timestamp: nat, signatures: seq<string>): string {
    "t=" + NatText(timestamp) + "," + Join(Labelled(signatures), ",")
  }

  // ---- verify.ts

  predicate IsHex(c: char) {
    '0' <= c <= '9' || 'a' <= c <= 'f' || 'A' <= c <= 'F'
  }

  /** /^[0-9a-f]{64}$/i */
  predicate HexSignature(s: string) {
    |s| == 64 && forall i :: 0 <= i < |s| ==> IsHex(s[i])
  }

  function FindTimestamp(parts: seq<string>): Option<string> {
    if parts == [] then None
    else if StartsWith(parts[0], "t=") then Some(parts[0][2..])
    else FindTimestamp(parts[1..])
  }

  function Signatures(parts: seq<string>): seq<string> {
    if parts == [] then []
    else (if StartsWith(parts[0], "v1=") then [parts[0][3..]] else []) + Signatures(parts[1..])
  }

  datatype Header = Header(timestamp: nat, signatures: seq<string>)

  function ParseHeader(header: string): (r: Option<Header>)
    ensures r.Some? ==> r.value.signatures != []
    ensures r.Some? ==> forall i :: 0 <= i < |r.value.signatures| ==> HexSignature(r.value.signatures[i])
  {
    var parts := Split(header, ',');
    var ts := FindTimestamp(parts);
    if ts.None? || ts.value == "" || !Digits(ts.value) then None
    else
      var signatures := Signatures(parts);
      if signatures == [] || exists i :: 0 <= i < |signatures| && !HexSignature(signatures[i]) then None
      else Some(Header(WholeValue(ts.value), signatures))
  }

  function HexValue(c: char): (n: nat)
    requires IsHex(c)
    ensures n < 16
  {
    if '0' <= c <= '9' then c as int - '0' as int
    else if 'a' <= c <= 'f' then c as int - 'a' as int + 10
    else c as int - 'A' as int + 10
  }

  /** Buffer.from(s, 'hex'): pairs of digits, up to the first pair that is none. */
  function FromHex(s: string): seq<nat> {
    if |s| < 2 || !IsHex(s[0]) || !IsHex(s[1]) then []
    else [16 * HexValue(s[0]) + HexValue(s[1])] + FromHex(s[2..])
  }

  predicate SafeHexEquals(a: string, b: string) {
    FromHex(a) == FromHex(b)
  }

  datatype Verification =
    | Verified(timestamp: nat, matchedSecretIndex: nat)
    | MalformedHeader
    | TimestampOutOfTolerance
    | NoMatchingSignature

  function Age(nowMs: int, timestamp: nat): nat {
    var d := nowMs / 1000 - timestamp;
    if d < 0 then -d else d
  }

  predicate SignedWith(expected: string, signatures: seq<string>) {
    exists i :: 0 <= i < |signatures| && SafeHexEquals(expected, signatures[i])
  }

  predicate Signs(mac: (string, string) -> string, secret: string, h: Header, body: string) {
    SignedWith(SignWebhookPayload(mac, secret, h.timestamp, body), h.signatures)
  }

  /** The first secret that has signed, or their number if none has. */
  function FirstSigner(mac: (string, string) -> string, secrets: seq<string>, h: Header, body: string): (n: nat)
    ensures n <= |secrets|
    ensures n < |secrets| ==> Signs(mac, secrets[n], h, body)
    ensures forall i :: 0 <= i < n ==> !Signs(mac, secrets[i], h, body)
  {
    if secrets == [] || Signs(mac, secrets[0], h, body) then 0 else 1 + FirstSigner(mac, secrets[1..], h, body)
  }

  function Verdict(mac: (string, string) -> string, body: string, header: Option<string>, secrets: seq<string>,
                   toleranceSeconds: int, nowMs: int): Verification
  {
    if header.None? || header.value == "" || secrets == [] || ParseHeader(header.value).None? then MalformedHeader
    else
      var h := ParseHeader(header.value).value;
      if Age(nowMs, h.timestamp) > toleranceSeconds then TimestampOutOfTolerance
      else
        var n := FirstSigner(mac, secrets, h, body);
        if n < |secrets| then Verified(h.timestamp, n) else NoMatchingSignature
  }

  method TrySignatures(expected: string, signatures: seq<string>, i: nat, matchedBefore: bool, indexBefore: int)
    returns (matched: bool, matchedSecretIndex: int)
    requires -1 <= indexBefore && (matchedBefore <==> indexBefore >= 0)
    ensures matched <==> matchedSecretIndex >= 0
    ensures matchedSecretIndex ==
            if indexBefore >= 0 then indexBefore else if SignedWith(expected, signatures) then i else -1
  {
    matched, matchedSecretIndex := matchedBefore, indexBefore;
    for j := 0 to |signatures|
      invariant matched <==> matchedSecretIndex >= 0
      invariant indexBefore >= 0 ==> matchedSecretIndex == indexBefore
      invariant indexBefore < 0 && matched ==> matchedSecretIndex == i && SignedWith(expected, signatures)
      invariant !matched ==> matchedSecretIndex == -1 && forall k :: 0 <= k < j ==> !SafeHexEquals(expected, signatures[k])
    {
      if SafeHexEquals(expected, signatures[j]) {
        matched := true;
        if matchedSecretIndex < 0 {
          matchedSecretIndex := i;
        }
      }
    }
  }

  /** The nested loops run to the end, so that timing tells nothing; the first match stays. */
  method VerifyWebhookSignature(mac: (string, string) -> string, body: string, header: Option<string>, secrets: seq<string>,
                                toleranceSeconds: int, nowMs: int) returns (r: Verification)
    ensures r == Verdict(mac, body, header, secrets, toleranceSeconds, nowMs)
  {
    if header.None? || header.value == "" || |secrets| == 0 {
      return MalformedHeader;
    }
    var parsed := ParseHeader(header.value);
    if parsed.None? {
      return MalformedHeader;
    }
    var h := parsed.value;
    if Age(nowMs, h.timestamp) > toleranceSeconds {
      return TimestampOutOfTolerance;
    }
    var matched, matchedSecretIndex := false, -1;
    for i := 0 to |secrets|
      invariant matched <==> matchedSecretIndex >= 0
      invariant -1 <= matchedSecretIndex < i
      invariant matched ==> Signs(mac, secrets[matchedSecretIndex], h, body)
      invariant forall k :: 0 <= k < (if matched then matchedSecretIndex else i) ==> !Signs(mac, secrets[k], h, body)
    {
      var expected := SignWebhookPayload(mac, secrets[i], h.timestamp, body);
      matched, matchedSecretIndex := TrySignatures(expected, h.signatures, i, matched, matchedSecretIndex);
    }
    FirstSignerIs(mac, secrets, h, body, if matched then matchedSecretIndex else |secrets|);
    return if matched then Verified(h.timestamp, matchedSecretIndex) else NoMatchingSignature;
  }

  lemma FirstSignerIs(mac: (string, string) -> string, secrets: seq<string>, h: Header, body: string, n: nat)
    requires n <= |secrets| && forall i :: 0 <= i < n ==> !Signs(mac, secrets[i], h, body)
    requires n < |secrets| ==> Signs(mac, secrets[n], h, body)
    ensures FirstSigner(mac, secrets, h, body) == n
  {
  }

  // ---- the header comes back

  lemma {:induction false} SplitJoin(parts: seq<string>)
    requires parts != [] && forall i :: 0 <= i < |parts| ==> ',' !in parts[i]
    ensures Split(Join(parts, ","), ',') == parts
    decreases |parts|
  {
    if |parts| == 1 {
      SplitSingle(parts[0], ',');
    } else {
      SplitJoin(parts[1..]);
      SplitFirst(parts[0], Join(parts[1..], ","), ',');
      assert parts == [parts[0]] + parts[1..];
    }
  }

  lemma SignaturesOfLabelled(signatures: seq<string>)
    ensures Signatures(Labelled(signatures)) == signatures
  {
    if signatures != [] {
      var parts := Labelled(signatures);
      assert parts[1..] == Labelled(signatures[1..]);
      SignaturesOfLabelled(signatures[1..]);
      assert parts[0][3..] == signatures[0];
      assert signatures == [signatures[0]] + signatures[1..];
    }
  }

  lemma LabelledHasNoComma(signatures: seq<string>)
    requires forall i :: 0 <= i < |signatures| ==> HexSignature(signatures[i])
    ensures forall i :: 0 <= i < |signatures| ==> ',' !in Labelled(signatures)[i]
  {
    forall i | 0 <= i < |signatures| ensures ',' !in Labelled(signatures)[i] {
      var part := Labelled(signatures)[i];
      assert forall k :: 0 <= k < |signatures[i]| ==> part[k + 3] == signatures[i][k];
      assert forall k :: 3 <= k < |part| ==> part[k] == signatures[i][k - 3];
    }
  }

  lemma HeaderParts(timestamp: nat, signatures: seq<string>)
    requires signatures != [] && forall i :: 0 <= i < |signatures| ==> HexSignature(signatures[i])
    ensures Split(BuildSignatureHeader(timestamp, signatures), ',') == ["t=" + NatText(timestamp)] + Labelled(signatures)
  {
    var first := "t=" + NatText(timestamp);
    assert forall k :: 2 <= k < |first| ==> first[k] == NatText(timestamp)[k - 2];
    LabelledHasNoComma(signatures);
    SplitJoin(Labelled(signatures));
    SplitFirst(first, Join(Labelled(signatures), ","), ',');
  }

  /** Round trip: the receiver reads the sender's timestamp and signatures. */
  lemma BuildParseRoundTrip(timestamp: nat, signatures: seq<string>)
    requires signatures != [] && forall i :: 0 <= i < |signatures| ==> HexSignature(signatures[i])
    ensures ParseHeader(BuildSignatureHeader(timestamp, signatures)) == Some(Header(timestamp, signatures))
  {
    var first := "t=" + NatText(timestamp);
    var parts := [first] + Labelled(signatures);
    HeaderParts(timestamp, signatures);
    assert parts[0] == first && parts[1..] == Labelled(signatures);
    assert first[2..] == NatText(timestamp);
    SignaturesOfLabelled(signatures);
    assert [] + signatures == signatures;
  }

  /** Whatever header is accepted means the same as the one the sender would have built. */
  lemma ParseBuildParse(header: string)
    requires ParseHeader(header).Some?
    ensures var h := ParseHeader(header).value;
      ParseHeader(BuildSignatureHeader(h.timestamp, h.signatures)) == ParseHeader(header)
  {
    var h := ParseHeader(header).value;
    BuildParseRoundTrip(h.timestamp, h.signatures);
  }

  lemma UnknownPartSkipped(before: seq<string>, part: string, after: seq<string>)
    requires !StartsWith(part, "t=") && !StartsWith(part, "v1=")
    ensures FindTimestamp(before + [part] + after) == FindTimestamp(before + after)
    ensures Signatures(before + [part] + after) == Signatures(before + after)
    decreases |before|
  {
    var parts := before + [part] + after;
    if before == [] {
      assert parts[0] == part && parts[1..] == after && before + after == after;
      assert [] + Signatures(after) == Signatures(after);
    } else {
      assert parts[0] == before[0] == (before + after)[0];
      assert parts[1..] == before[1..] + [part] + after && (before + after)[1..] == before[1..] + after;
      UnknownPartSkipped(before[1..], part, after);
    }
  }

  /** Parts of a header that are neither a timestamp nor a v1 signature make no difference, wherever
      they stand. */
  lemma UnknownPartsMakeNoDifference(header: string, plain: string, before: seq<string>, part: string, after: seq<string>)
    requires !StartsWith(part, "t=") && !StartsWith(part, "v1=")
    requires Split(header, ',') == before + [part] + after && Split(plain, ',') == before + after
    ensures ParseHeader(header) == ParseHeader(plain)
  {
    UnknownPartSkipped(before, part, after);
  }

  // ---- comparing signatures

  function Lower(c: char): char {
    if 'A' <= c <= 'F' then (c as int + 32) as char else c
  }

  /** Signatures are compared by the bytes they spell, so capitals do not matter. */
  lemma {:induction false} HexEqualsIgnoresCase(a: string, b: string)
    requires |a| == |b| && |a| % 2 == 0
    requires forall i :: 0 <= i < |a| ==> IsHex(a[i]) && IsHex(b[i])
    ensures SafeHexEquals(a, b) <==> forall i :: 0 <= i < |a| ==> Lower(a[i]) == Lower(b[i])
    decreases |a|
  {
    if a != "" {
      HexEqualsIgnoresCase(a[2..], b[2..]);
      SameDigit(a[0], b[0]);
      SameDigit(a[1], b[1]);
      assert FromHex(a) == FromHex(b) <==> FromHex(a)[0] == FromHex(b)[0] && FromHex(a)[1..] == FromHex(b)[1..];
      assert forall i :: 2 <= i < |a| ==> a[i] == a[2..][i - 2] && b[i] == b[2..][i - 2];
      assert forall i :: 0 <= i < |a| - 2 ==> a[2..][i] == a[i + 2] && b[2..][i] == b[i + 2];
    }
  }

  lemma SameDigit(c: char, d: char)
    requires IsHex(c) && IsHex(d)
    ensures HexValue(c) == HexValue(d) <==> Lower(c) == Lower(d)
  {
  }

  // ---- verification

  ghost predicate DigestsAreHex(mac: (string, string) -> string) {
    forall secret, text :: HexSignature(mac(secret, text))
  }

  /** One signature per secret of the sender. */
  function SignAll(mac: (string, string) -> string, secrets: seq<string>, timestamp: nat, body: string): (r: seq<string>)
    ensures |r| == |secrets|
    ensures forall i :: 0 <= i < |secrets| ==> r[i] == SignWebhookPayload(mac, secrets[i], timestamp, body)
  {
    seq(|secrets|, i requires 0 <= i < |secrets| => SignWebhookPayload(mac, secrets[i], timestamp, body))
  }

  /** None of these secrets turns this text into a digest of one of those. */
  ghost predicate NoForgery(mac: (string, string) -> string, secrets: seq<string>, text: string, senders: seq<string>, signed: string) {
    forall k, k' :: k in secrets && k' in senders && SafeHexEquals(mac(k, text), mac(k', signed)) ==> k == k' && text == signed
  }

  lemma SignedTextTellsBodies(timestamp: nat, body: string, received: string)
    ensures SignedText(timestamp, body) == SignedText(timestamp, received) <==> body == received
  {
    var n := |NatText(timestamp)| + 1;
    assert SignedText(timestamp, body)[n..] == body && SignedText(timestamp, received)[n..] == received;
  }

  lemma SenderSigns(mac: (string, string) -> string, senders: seq<string>, timestamp: nat, body: string, secret: string,
                    secrets: seq<string>, received: string)
    requires secret in secrets
    requires NoForgery(mac, secrets, SignedText(timestamp, received), senders, SignedText(timestamp, body))
    ensures Signs(mac, secret, Header(timestamp, SignAll(mac, senders, timestamp, body)), received)
            <==> body == received && secret in senders
  {
    var all := SignAll(mac, senders, timestamp, body);
    SignedTextTellsBodies(timestamp, body, received);
    if Signs(mac, secret, Header(timestamp, all), received) {
      var i :| 0 <= i < |all| && SafeHexEquals(SignWebhookPayload(mac, secret, timestamp, received), all[i]);
      assert senders[i] in senders;
    }
    if body == received && secret in senders {
      var i :| 0 <= i < |senders| && senders[i] == secret;
      assert SafeHexEquals(SignWebhookPayload(mac, secret, timestamp, received), all[i]);
    }
  }

  /** What a receiver makes of an honest delivery, whole or tampered with: it is verified exactly
      when it is fresh, unaltered and signed with a secret the receiver still knows, and the
      receiver's first such secret is reported. */
  lemma DeliveryVerifies(mac: (string, string) -> string, senders: seq<string>, timestamp: nat, body: string, received: string,
                         secrets: seq<string>, toleranceSeconds: int, nowMs: int)
    requires DigestsAreHex(mac) && senders != [] && secrets != []
    requires NoForgery(mac, secrets, SignedText(timestamp, received), senders, SignedText(timestamp, body))
    ensures var header := BuildSignatureHeader(timestamp, SignAll(mac, senders, timestamp, body));
      var r := Verdict(mac, received, Some(header), secrets, toleranceSeconds, nowMs);
      var ahead := nowMs / 1000 - timestamp;
      && (r.Verified? <==> -toleranceSeconds <= ahead <= toleranceSeconds && body == received && exists i :: 0 <= i < |secrets| && secrets[i] in senders)
      && (r.Verified? ==> r.timestamp == timestamp && r.matchedSecretIndex < |secrets| && secrets[r.matchedSecretIndex] in senders
                          && forall i :: 0 <= i < r.matchedSecretIndex ==> secrets[i] !in senders)
      && (r.TimestampOutOfTolerance? <==> ahead < -toleranceSeconds || toleranceSeconds < ahead)
      && !r.MalformedHeader?
  {
    var all := SignAll(mac, senders, timestamp, body);
    BuildParseRoundTrip(timestamp, all);
    var h := Header(timestamp, all);
    forall i | 0 <= i < |secrets| ensures Signs(mac, secrets[i], h, received) <==> body == received && secrets[i] in senders {
      SenderSigns(mac, senders, timestamp, body, secrets[i], secrets, received);
    }
  }

  /** One of the signatures is this secret's digest of timestamp, point and body. */
  predicate Matches(mac: (string, string) -> string, secret: string, h: Header, body: string) {
    exists j :: 0 <= j < |h.signatures| && SafeHexEquals(mac(secret, NatText(h.timestamp) + "." + body), h.signatures[j])
  }

  lemma SignsIffMatches(mac: (string, string) -> string, secret: string, h: Header, body: string)
    ensures Signs(mac, secret, h, body) <==> Matches(mac, secret, h, body)
  {
  }

  /** Whatever header arrives, honest or not: it is verified under a secret exactly when it can be
      read, its timestamp is within tolerance, and that secret is the first that matches. */
  lemma VerifiedIff(mac: (string, string) -> string, body: string, header: string, secrets: seq<string>,
                    toleranceSeconds: int, nowMs: int, i: nat)
    requires header != "" && i < |secrets| && ParseHeader(header).Some?
    ensures var h := ParseHeader(header).value;
      var ahead := nowMs / 1000 - h.timestamp;
      Verdict(mac, body, Some(header), secrets, toleranceSeconds, nowMs) == Verified(h.timestamp, i) <==>
      && -toleranceSeconds <= ahead <= toleranceSeconds
      && Matches(mac, secrets[i], h, body) && forall k :: 0 <= k < i ==> !Matches(mac, secrets[k], h, body)
  {
    var h := ParseHeader(header).value;
    forall k | 0 <= k < |secrets| ensures Signs(mac, secrets[k], h, body) <==> Matches(mac, secrets[k], h, body) {
      SignsIffMatches(mac, secrets[k], h, body);
    }
    if Signs(mac, secrets[i], h, body) && forall k :: 0 <= k < i ==> !Signs(mac, secrets[k], h, body) {
      FirstSignerIs(mac, secrets, h, body, i);
    }
  }

  /** Without a header, without a secret, or with a header that cannot be read, nothing is verified. */
  lemma UnreadableIsMalformed(mac: (string, string) -> string, body: string, header: Option<string>, secrets: seq<string>,
                              toleranceSeconds: int, nowMs: int)
    ensures Verdict(mac, body, header, secrets, toleranceSeconds, nowMs).MalformedHeader? <==>
            header.None? || header.value == "" || secrets == [] || ParseHeader(header.value).None?
  {
  }
}
