/** The request hash of canonical-hash.ts and the entity tag of etag.ts: which requests count as
    the same request, and which payloads as not modified. */
module CanonicalHash {
  import opened CanonicalJson
  import opened CanonicalText
  import opened JsText
  import opened Options
  import KeyOrder
  import Decimal

  /** These two texts do not have the same digest by accident. */
  predicate NoCollision(sha: string -> string, s: string, t: string) {
    sha(s) == sha(t) ==> s == t
  }

  // ---- leaves

  function Unchanged(s: string): string {
    s
  }

  predicate SameText(s: string, t: string) {
    s == t
  }

  lemma NormStringDecides()
    ensures Decides(Decimal.NormString, Decimal.SameSpelling)
  {
    forall s, t ensures Decimal.NormString(s) == Decimal.NormString(t) <==> Decimal.SameSpelling(s, t) {
      Decimal.SameNormString(s, t);
    }
  }

  // ---- etag.ts

  /** canonical: its own recursion, sorting the keys as it prints. */
  function Canonical(lt: (string, string) -> bool, v: Json): string
    decreases Size(v), 0
  {
    match v
    case Arr(items) => "[" + Join(CanonicalItems(lt, items), ",") + "]"
    case Obj(ms) => "{" + Join(CanonicalEntries(lt, SortMembers(lt, ms)), ",") + "}"
    case _ => Stringify(v)
  }

  function CanonicalItems(lt: (string, string) -> bool, items: seq<Json>): seq<string>
    decreases ItemsSize(items), |items|
  {
    if items == [] then [] else [Canonical(lt, items[0])] + CanonicalItems(lt, items[1..])
  }

  function CanonicalEntries(lt: (string, string) -> bool, ms: seq<Member>): seq<string>
    decreases MembersSize(ms), |ms|
  {
    if ms == [] then []
    else [Quote(ms[0].key) + ":" + Canonical(lt, ms[0].value)] + CanonicalEntries(lt, ms[1..])
  }

  /** The commas of join, put behind the parts instead of between them. */
  function Trailing(parts: seq<string>, close: string): string {
    if parts == [] then close else "," + (parts[0] + Trailing(parts[1..], close))
  }

  lemma {:induction false} JoinIsTrailing(parts: seq<string>, close: string)
    requires parts != []
    ensures Join(parts, ",") + close == parts[0] + Trailing(parts[1..], close)
    decreases |parts|
  {
    if |parts| > 1 {
      JoinIsTrailing(parts[1..], close);
      assert parts[1..][0] == parts[1];
    }
  }

  lemma {:induction false} ItemsPrinted(lt: (string, string) -> bool, items: seq<Json>)
    ensures Trailing(CanonicalItems(lt, items), "]") == StringifyItems(ArrangeItems(lt, Unchanged, items))
    decreases ItemsSize(items), |items|
  {
    if items != [] {
      PrintsWhatItArranges(lt, items[0]);
      ItemsPrinted(lt, items[1..]);
    }
  }

  lemma {:induction false} EntriesPrinted(lt: (string, string) -> bool, ms: seq<Member>)
    ensures Trailing(CanonicalEntries(lt, ms), "}") == StringifyMembers(ArrangeMembers(lt, Unchanged, ms))
    decreases MembersSize(ms), |ms|
  {
    if ms != [] {
      PrintsWhatItArranges(lt, ms[0].value);
      EntriesPrinted(lt, ms[1..]);
      var rest := ArrangeMembers(lt, Unchanged, ms[1..]);
      EntryRegroups(ms[0].key, Canonical(lt, ms[0].value), StringifyMembers(rest));
      assert ArrangeMembers(lt, Unchanged, ms)[1..] == rest;
    }
  }

  lemma EntryRegroups(key: string, text: string, rest: string)
    ensures (Quote(key) + ":" + text) + rest == Quote(key) + (":" + (text + rest))
  {
  }

  /** The printer of etag.ts is JSON.stringify after sorting the keys. */
  lemma {:induction false} PrintsWhatItArranges(lt: (string, string) -> bool, v: Json)
    ensures Canonical(lt, v) == Stringify(Arrange(lt, Unchanged, v))
    decreases Size(v), 0
  {
    match v
    case Arr(items) =>
      if items != [] {
        var parts := CanonicalItems(lt, items);
        JoinIsTrailing(parts, "]");
        Regroup("[", Join(parts, ","), "]");
        assert Size(v) == 1 + (Size(items[0]) + ItemsSize(items[1..]));
        PrintsWhatItArranges(lt, items[0]);
        ItemsPrinted(lt, items[1..]);
        assert ArrangeItems(lt, Unchanged, items)[1..] == ArrangeItems(lt, Unchanged, items[1..]);
      }
    case Obj(members) =>
      var ms := SortMembers(lt, members);
      if ms != [] {
        var parts := CanonicalEntries(lt, ms);
        JoinIsTrailing(parts, "}");
        Regroup("{", Join(parts, ","), "}");
        PrintsWhatItArranges(lt, ms[0].value);
        EntriesPrinted(lt, ms[1..]);
        var rest := ArrangeMembers(lt, Unchanged, ms[1..]);
        EntryRegroups(ms[0].key, Canonical(lt, ms[0].value), StringifyMembers(rest));
        assert ArrangeMembers(lt, Unchanged, ms)[1..] == rest;
      }
    case _ =>
  }

  lemma {:induction false} ArrangeWellFormed(lt: (string, string) -> bool, leaf: string -> string, v: Json)
    requires KeyOrder.StrictOrder(lt) && WellFormed(v)
    ensures WellFormed(Arrange(lt, leaf, v))
    decreases Size(v)
  {
    match v
    case Arr(items) =>
      forall i | 0 <= i < |items| ensures WellFormed(ArrangeItems(lt, leaf, items)[i]) {
        assert ArrangeItems(lt, leaf, items)[i] == Arrange(lt, leaf, items[i]);
        ArrangeWellFormed(lt, leaf, items[i]);
      }
    case Obj(ms) =>
      var p := SortMembers(lt, ms);
      SortAscends(lt, ms);
      SortKeepsMembers(lt, ms);
      forall i | 0 <= i < |p| ensures WellFormed(ArrangeMembers(lt, leaf, p)[i].value) {
        assert p[i] in ms && ArrangeMembers(lt, leaf, p)[i].value == Arrange(lt, leaf, p[i].value);
        ArrangeWellFormed(lt, leaf, p[i].value);
      }
    case _ =>
  }

  /** Two payloads have the same tag text exactly when they are equal up to key order. */
  lemma EtagTextDecides(lt: (string, string) -> bool, a: Json, b: Json)
    requires KeyOrder.StrictOrder(lt) && WellFormed(a) && WellFormed(b)
    ensures Canonical(lt, a) == Canonical(lt, b) <==> Alike(SameText, a, b)
  {
    PrintsWhatItArranges(lt, a);
    PrintsWhatItArranges(lt, b);
    ArrangeWellFormed(lt, Unchanged, a);
    ArrangeWellFormed(lt, Unchanged, b);
    ArrangeDecides(lt, Unchanged, SameText, a, b);
    if Canonical(lt, a) == Canonical(lt, b) {
      StringifyInjective(Arrange(lt, Unchanged, a), Arrange(lt, Unchanged, b));
    }
  }

  datatype Reply = Reply(status: int, etag: Option<string>, body: Option<Json>)

  function Etag(sha: string -> string, lt: (string, string) -> bool, payload: Json): string {
    "\"" + sha(Canonical(lt, payload)) + "\""
  }

  /** The preSerialization hook. */
  function Respond(sha: string -> string, lt: (string, string) -> bool, get: bool, status: int,
                   ifNoneMatch: Option<string>, payload: Json): Reply
  {
    if !get || status >= 300 then Reply(status, None, Some(payload))
    else
      var etag := Etag(sha, lt, payload);
      if ifNoneMatch == Some(etag) then Reply(304, Some(etag), None) else Reply(status, Some(etag), Some(payload))
  }

  lemma QuotedApart(s: string, t: string)
    requires "\"" + s + "\"" == "\"" + t + "\""
    ensures s == t
  {
    assert s == ("\"" + s + "\"")[1..][..|s|] && t == ("\"" + t + "\"")[1..][..|t|];
  }

  lemma SameTagIffAlike(sha: string -> string, lt: (string, string) -> bool, seen: Json, now: Json)
    requires NoCollision(sha, Canonical(lt, seen), Canonical(lt, now))
    requires KeyOrder.StrictOrder(lt) && WellFormed(seen) && WellFormed(now)
    ensures Etag(sha, lt, seen) == Etag(sha, lt, now) <==> Alike(SameText, seen, now)
  {
    EtagTextDecides(lt, seen, now);
    if Etag(sha, lt, seen) == Etag(sha, lt, now) {
      QuotedApart(sha(Canonical(lt, seen)), sha(Canonical(lt, now)));
    }
  }

  /** A client that sends back the tag of what it has seen gets an empty 304 exactly when the
      resource still equals what it has seen, up to key order. */
  lemma ConditionalGet(sha: string -> string, lt: (string, string) -> bool, seen: Json, now: Json, status: int)
    requires NoCollision(sha, Canonical(lt, seen), Canonical(lt, now))
    requires KeyOrder.StrictOrder(lt) && WellFormed(seen) && WellFormed(now) && status < 300
    ensures var first := Respond(sha, lt, true, status, None, seen);
      var second := Respond(sha, lt, true, status, first.etag, now);
      && first.etag.Some? && first.status == status && first.body == Some(seen)
      && (second.status == 304 <==> Alike(SameText, seen, now))
      && second.body == (if Alike(SameText, seen, now) then None else Some(now))
      && second.status == (if Alike(SameText, seen, now) then 304 else status)
  {
    SameTagIffAlike(sha, lt, seen, now);
  }

  /** Only a successful GET is tagged and may be answered 304; any other reply keeps its status
      and payload, whatever the request says it has seen. */
  lemma OnlyGoodGetsAreTagged(sha: string -> string, lt: (string, string) -> bool, get: bool, status: int,
                              ifNoneMatch: Option<string>, payload: Json)
    ensures var r := Respond(sha, lt, get, status, ifNoneMatch, payload);
      && (r.etag.Some? <==> get && status < 300)
      && (r.etag.None? ==> r == Reply(status, None, Some(payload)))
      && (r.body.None? ==> get && status < 300 && r.status == 304 && ifNoneMatch == r.etag)
      && (r.body.Some? ==> r.status == status && r.body.value == payload && (get && status < 300 ==> ifNoneMatch != r.etag))
  {
  }

  // ---- canonical-hash.ts

  function Norm(lt: (string, string) -> bool, v: Json): Json {
    Arrange(lt, Decimal.NormString, v)
  }

  lemma {:induction false} ArrangedIsAlike(lt: (string, string) -> bool, leaf: string -> string,
                                           same: (string, string) -> bool, v: Json)
    requires forall s :: same(leaf(s), s)
    ensures Alike(same, Arrange(lt, leaf, v), v)
    decreases Size(v), 1
  {
    match v
    case Arr(items) => ArrangedItemsAlike(lt, leaf, same, items);
    case Obj(ms) => ArrangedMembersAlike(lt, leaf, same, ms);
    case _ =>
  }

  lemma {:induction false} ArrangedItemsAlike(lt: (string, string) -> bool, leaf: string -> string,
                                              same: (string, string) -> bool, items: seq<Json>)
    requires forall s :: same(leaf(s), s)
    ensures Alike(same, Arr(ArrangeItems(lt, leaf, items)), Arr(items))
    decreases ItemsSize(items), 2
  {
    var r := ArrangeItems(lt, leaf, items);
    forall i | 0 <= i < |items| ensures Alike(same, r[i], items[i]) {
      assert r[i] == Arrange(lt, leaf, items[i]);
      ArrangedIsAlike(lt, leaf, same, items[i]);
    }
  }

  lemma {:induction false} ArrangedMembersAlike(lt: (string, string) -> bool, leaf: string -> string,
                                                same: (string, string) -> bool, ms: seq<Member>)
    requires forall s :: same(leaf(s), s)
    ensures AlikeMembers(same, ArrangeMembers(lt, leaf, SortMembers(lt, ms)), ms)
    decreases MembersSize(ms), 2
  {
    var p := SortMembers(lt, ms);
    var r := ArrangeMembers(lt, leaf, p);
    forall i | 0 <= i < |r| ensures HasAlike(same, r[i], ms) {
      var k := UnsortedAt(lt, ms, i);
      ArrangedIsAlike(lt, leaf, same, p[i].value);
      ArrangedEntry(lt, leaf, same, p, i, ms, k);
    }
    forall j | 0 <= j < |ms| ensures HasKey(r, ms[j].key) {
      var i := SortedAt(lt, ms, j);
      assert r[i].key == p[i].key;
    }
  }

  lemma ArrangedEntry(lt: (string, string) -> bool, leaf: string -> string, same: (string, string) -> bool,
                      p: seq<Member>, i: nat, ms: seq<Member>, k: nat)
    requires i < |p| && k < |ms| && ms[k] == p[i] && Alike(same, Arrange(lt, leaf, p[i].value), p[i].value)
    ensures HasAlike(same, ArrangeMembers(lt, leaf, p)[i], ms)
  {
    assert ArrangeMembers(lt, leaf, p)[i] == Member(p[i].key, Arrange(lt, leaf, p[i].value));
  }

  /** Normalising once is enough. */
  lemma NormIdempotent(lt: (string, string) -> bool, v: Json)
    requires KeyOrder.StrictOrder(lt) && WellFormed(v)
    ensures Norm(lt, Norm(lt, v)) == Norm(lt, v)
  {
    NormStringDecides();
    forall s ensures Decimal.SameSpelling(Decimal.NormString(s), s) {
      Decimal.NormStringIdempotent(s);
      Decimal.SameNormString(Decimal.NormString(s), s);
    }
    ArrangedIsAlike(lt, Decimal.NormString, Decimal.SameSpelling, v);
    ArrangeWellFormed(lt, Decimal.NormString, v);
    ArrangeDecides(lt, Decimal.NormString, Decimal.SameSpelling, Norm(lt, v), v);
  }

  lemma {:induction false} AlikeItself(v: Json)
    ensures Alike(SameText, v, v)
    decreases v
  {
    match v
    case Arr(items) =>
      forall i | 0 <= i < |items| ensures Alike(SameText, items[i], items[i]) {
        AlikeItself(items[i]);
      }
    case Obj(ms) =>
      forall i | 0 <= i < |ms| ensures HasAlike(SameText, ms[i], ms) {
        AlikeItself(ms[i].value);
      }
    case _ =>
  }

  /** A value is alike to itself with the entries of an object in another order. */
  lemma ReorderedIsAlike(ms: seq<Member>, ns: seq<Member>)
    requires multiset(ms) == multiset(ns)
    ensures Alike(SameText, Obj(ms), Obj(ns))
  {
    forall i | 0 <= i < |ms| ensures HasAlike(SameText, ms[i], ns) {
      assert ms[i] in multiset(ns);
      var j :| 0 <= j < |ns| && ns[j] == ms[i];
      AlikeItself(ms[i].value);
    }
    forall j | 0 <= j < |ns| ensures HasKey(ms, ns[j].key) {
      assert ns[j] in multiset(ms);
    }
  }

  /** version is what the pillar-version entry holds, under any capitals, "" if it is there without a
      value; None when there is no such entry. */
  datatype Request = Request(verb: string, pathTemplate: string, apiVersion: string, body: Option<Json>,
                             version: Option<string>)

  /** value ?? {} */
  function BodyOf(r: Request): Json {
    if r.body.None? || r.body.value.Null? then Obj([]) else r.body.value
  }

  function Headers(upper: string -> string, r: Request): Json {
    Obj((if r.version.Some? then [Member("pillar-version", Str(Trim(r.version.value)))] else [])
        + [Member("pillar-path-template", Str(upper(r.verb) + " " + r.pathTemplate))])
  }

  function Payload(upper: string -> string, lt: (string, string) -> bool, r: Request): Json {
    Obj([Member("method", Str(upper(r.verb))),
         Member("path_template", Str(r.pathTemplate)),
         Member("api_version", Str(r.apiVersion)),
         Member("body", Norm(lt, BodyOf(r))),
         Member("headers", Headers(upper, r))])
  }

  function RequestHash(sha: string -> string, upper: string -> string, lt: (string, string) -> bool, r: Request): string {
    sha(Stringify(Payload(upper, lt, r)))
  }

  /** Both headers are missing, or both are one text with white space around it. */
  ghost predicate SameVersion(a: Option<string>, b: Option<string>) {
    || (a.None? && b.None?)
    || (a.Some? && b.Some? && exists t :: Trimmed(t) && Pads(a.value, t) && Pads(b.value, t))
  }

  /** A body that stands for no content. */
  predicate NoContent(body: Option<Json>) {
    body == None || body == Some(Null) || body == Some(Obj([]))
  }

  ghost predicate SameBody(a: Option<Json>, b: Option<Json>) {
    || (NoContent(a) && NoContent(b))
    || (a.Some? && b.Some? && Alike(Decimal.SameSpelling, a.value, b.value))
  }

  /** The same request: retries may reorder keys, pad strings and respell decimals. */
  ghost predicate SameRequest(upper: string -> string, a: Request, b: Request) {
    && upper(a.verb) == upper(b.verb)
    && a.pathTemplate == b.pathTemplate
    && a.apiVersion == b.apiVersion
    && SameVersion(a.version, b.version)
    && SameBody(a.body, b.body)
  }

  function TrimmedVersion(r: Request): Option<string> {
    if r.version.Some? then Some(Trim(r.version.value)) else None
  }

  lemma SameVersionIffTrimmed(a: Request, b: Request)
    ensures TrimmedVersion(a) == TrimmedVersion(b) <==> SameVersion(a.version, b.version)
  {
    if a.version.Some? && b.version.Some? {
      TrimIffPads(a.version.value, Trim(a.version.value));
      TrimIffPads(b.version.value, Trim(b.version.value));
      if t :| Trimmed(t) && Pads(a.version.value, t) && Pads(b.version.value, t) {
        TrimIffPads(a.version.value, t);
        TrimIffPads(b.version.value, t);
      }
    }
  }

  lemma OnlyEmptyIsAlikeEmpty(same: (string, string) -> bool, v: Json)
    ensures Alike(same, Obj([]), v) <==> v == Obj([])
    ensures Alike(same, v, Obj([])) <==> v == Obj([])
  {
    if v.Obj? && v.members != [] {
      assert !HasKey([], v.members[0].key);
      assert !HasAlike(same, v.members[0], []);
    }
  }

  lemma SameBodyIffAlike(a: Request, b: Request)
    ensures Alike(Decimal.SameSpelling, BodyOf(a), BodyOf(b)) <==> SameBody(a.body, b.body)
  {
    OnlyEmptyIsAlikeEmpty(Decimal.SameSpelling, BodyOf(a));
    OnlyEmptyIsAlikeEmpty(Decimal.SameSpelling, BodyOf(b));
  }

  lemma HeadersWellFormed(upper: string -> string, r: Request)
    ensures WellFormed(Headers(upper, r))
  {
    assert "pillar-version" != "pillar-path-template" by { assert |"pillar-version"| != |"pillar-path-template"|; }
  }

  lemma PayloadWellFormed(upper: string -> string, lt: (string, string) -> bool, r: Request)
    requires KeyOrder.StrictOrder(lt) && WellFormed(BodyOf(r))
    ensures WellFormed(Payload(upper, lt, r))
  {
    ArrangeWellFormed(lt, Decimal.NormString, BodyOf(r));
    HeadersWellFormed(upper, r);
    var ms := Payload(upper, lt, r).members;
    assert |ms[0].key| == 6 && |ms[1].key| == 13 && |ms[2].key| == 11 && |ms[3].key| == 4 && |ms[4].key| == 7;
  }

  lemma SamePayload(upper: string -> string, lt: (string, string) -> bool, a: Request, b: Request)
    ensures Payload(upper, lt, a) == Payload(upper, lt, b) <==>
            (&& upper(a.verb) == upper(b.verb) && a.pathTemplate == b.pathTemplate && a.apiVersion == b.apiVersion
             && TrimmedVersion(a) == TrimmedVersion(b) && Norm(lt, BodyOf(a)) == Norm(lt, BodyOf(b)))
  {
    var p, q := Payload(upper, lt, a).members, Payload(upper, lt, b).members;
    if p == q {
      assert p[0] == q[0] && p[1] == q[1] && p[2] == q[2] && p[3] == q[3] && p[4] == q[4];
      var h, k := Headers(upper, a).members, Headers(upper, b).members;
      assert h == k;
      assert |h| == |k| && h[0] == k[0];
    }
  }

  /** The request hash decides whether a retry is the same request, for any key order at any
      depth and any spelling of the decimals. */
  lemma RequestHashDecides(sha: string -> string, upper: string -> string, lt: (string, string) -> bool, a: Request, b: Request)
    requires NoCollision(sha, Stringify(Payload(upper, lt, a)), Stringify(Payload(upper, lt, b)))
    requires KeyOrder.StrictOrder(lt) && WellFormed(BodyOf(a)) && WellFormed(BodyOf(b))
    ensures RequestHash(sha, upper, lt, a) == RequestHash(sha, upper, lt, b) <==> SameRequest(upper, a, b)
  {
    NormStringDecides();
    ArrangeDecides(lt, Decimal.NormString, Decimal.SameSpelling, BodyOf(a), BodyOf(b));
    SameVersionIffTrimmed(a, b);
    SameBodyIffAlike(a, b);
    SamePayload(upper, lt, a, b);
    PayloadWellFormed(upper, lt, a);
    PayloadWellFormed(upper, lt, b);
    if RequestHash(sha, upper, lt, a) == RequestHash(sha, upper, lt, b) {
      StringifyInjective(Payload(upper, lt, a), Payload(upper, lt, b));
    }
  }
}
