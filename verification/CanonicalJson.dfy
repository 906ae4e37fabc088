/** Canonical JSON: the texts that canonical-hash.ts and etag.ts hash. Two values get the same
    text exactly when they are alike, whatever the order of their keys. */
module CanonicalJson {
  import opened KeyOrder

  datatype Member = Member(key: string, value: Json)

  /** A JSON value; a number is held as the text JSON.stringify gives it. */
  datatype Json =
    | Null
    | Bool(b: bool)
    | Num(text: string)
    | Str(s: string)
    | Arr(items: seq<Json>)
    | Obj(members: seq<Member>)

  predicate NumberChar(c: char) {
    '0' <= c <= '9' || c == '-' || c == '+' || c == '.' || c == 'e'
  }

  predicate NumberText(t: string) {
    t != "" && t[0] != '+' && t[0] != '.' && t[0] != 'e' && forall i :: 0 <= i < |t| ==> NumberChar(t[i])
  }

  predicate DistinctKeys(ms: seq<Member>) {
    forall i, j :: 0 <= i < j < |ms| ==> ms[i].key != ms[j].key
  }

  /** Keys are distinct at every depth and numbers look like numbers. */
  predicate WellFormed(v: Json)
    decreases v
  {
    match v
    case Num(text) => NumberText(text)
    case Arr(items) => forall i :: 0 <= i < |items| ==> WellFormed(items[i])
    case Obj(ms) => DistinctKeys(ms) && forall i :: 0 <= i < |ms| ==> WellFormed(ms[i].value)
    case _ => true
  }

  function Size(v: Json): (n: nat)
    ensures n > 0
    decreases v
  {
    match v
    case Arr(items) => 1 + ItemsSize(items)
    case Obj(ms) => 1 + MembersSize(ms)
    case _ => 1
  }

  function ItemsSize(items: seq<Json>): nat
    decreases items
  {
    if items == [] then 0 else Size(items[0]) + ItemsSize(items[1..])
  }

  function MembersSize(ms: seq<Member>): nat
    decreases ms
  {
    if ms == [] then 0 else Size(ms[0].value) + MembersSize(ms[1..])
  }

  // ---- sorting entries by key

  function InsertMember(lt: (string, string) -> bool, m: Member, ms: seq<Member>): (r: seq<Member>)
    ensures multiset(r) == multiset{m} + multiset(ms)
    ensures |r| == |ms| + 1
    ensures MembersSize(r) == Size(m.value) + MembersSize(ms)
    decreases |ms|
  {
    if ms == [] || lt(m.key, ms[0].key) then
      assert ([m] + ms)[1..] == ms;
      [m] + ms
    else
      var rest := InsertMember(lt, m, ms[1..]);
      assert ([ms[0]] + rest)[1..] == rest;
      assert ms == [ms[0]] + ms[1..];
      [ms[0]] + rest
  }

  /** Array.prototype.sort on entries, comparing their keys. */
  function SortMembers(lt: (string, string) -> bool, ms: seq<Member>): (r: seq<Member>)
    ensures multiset(r) == multiset(ms)
    ensures |r| == |ms|
    ensures MembersSize(r) == MembersSize(ms)
    decreases |ms|
  {
    if ms == [] then []
    else
      assert ms == [ms[0]] + ms[1..];
      InsertMember(lt, ms[0], SortMembers(lt, ms[1..]))
  }

  predicate Ascending(lt: (string, string) -> bool, ms: seq<Member>) {
    forall i, j :: 0 <= i < j < |ms| ==> lt(ms[i].key, ms[j].key)
  }

  lemma {:induction false} InsertAscends(lt: (string, string) -> bool, m: Member, ms: seq<Member>)
    requires StrictOrder(lt) && Ascending(lt, ms)
    requires forall i :: 0 <= i < |ms| ==> ms[i].key != m.key
    ensures Ascending(lt, InsertMember(lt, m, ms))
    decreases |ms|
  {
    var r := InsertMember(lt, m, ms);
    if ms != [] && !lt(m.key, ms[0].key) {
      InsertAscends(lt, m, ms[1..]);
      var rest := InsertMember(lt, m, ms[1..]);
      forall i | 0 <= i < |rest| ensures lt(ms[0].key, rest[i].key) {
        assert rest[i] in multiset(rest);
        assert rest[i] == m || rest[i] in ms[1..];
      }
    }
  }

  lemma {:induction false} SortAscends(lt: (string, string) -> bool, ms: seq<Member>)
    requires StrictOrder(lt) && DistinctKeys(ms)
    ensures Ascending(lt, SortMembers(lt, ms))
    decreases |ms|
  {
    if ms != [] {
      SortAscends(lt, ms[1..]);
      var rest := SortMembers(lt, ms[1..]);
      forall i | 0 <= i < |rest| ensures rest[i].key != ms[0].key {
        assert rest[i] in multiset(rest);
        assert rest[i] in ms[1..];
      }
      InsertAscends(lt, ms[0], rest);
    }
  }

  lemma SortKeepsMembers(lt: (string, string) -> bool, ms: seq<Member>)
    ensures forall m :: m in SortMembers(lt, ms) <==> m in ms
  {
    var r := SortMembers(lt, ms);
    forall m ensures m in r <==> m in ms {
      assert m in multiset(r) <==> m in multiset(ms);
    }
  }

  // ---- the code

  /** Sorts the keys at every depth and rewrites the string leaves: norm, for leaf = NormString. */
  function Arrange(lt: (string, string) -> bool, leaf: string -> string, v: Json): Json
    decreases Size(v), 0
  {
    match v
    case Str(s) => Str(leaf(s))
    case Arr(items) => Arr(ArrangeItems(lt, leaf, items))
    case Obj(ms) => Obj(ArrangeMembers(lt, leaf, SortMembers(lt, ms)))
    case _ => v
  }

  function ArrangeItems(lt: (string, string) -> bool, leaf: string -> string, items: seq<Json>): (r: seq<Json>)
    ensures |r| == |items|
    ensures forall i :: 0 <= i < |items| ==> Size(items[i]) <= ItemsSize(items) && r[i] == Arrange(lt, leaf, items[i])
    decreases ItemsSize(items), |items|
  {
    if items == [] then [] else [Arrange(lt, leaf, items[0])] + ArrangeItems(lt, leaf, items[1..])
  }

  function ArrangeMembers(lt: (string, string) -> bool, leaf: string -> string, ms: seq<Member>): (r: seq<Member>)
    ensures |r| == |ms|
    ensures forall i :: 0 <= i < |ms| ==>
      Size(ms[i].value) <= MembersSize(ms) && r[i] == Member(ms[i].key, Arrange(lt, leaf, ms[i].value))
    decreases MembersSize(ms), |ms|
  {
    if ms == [] then []
    else [Member(ms[0].key, Arrange(lt, leaf, ms[0].value))] + ArrangeMembers(lt, leaf, ms[1..])
  }

  // ---- being the same value

  predicate HasKey(ms: seq<Member>, key: string) {
    exists i :: 0 <= i < |ms| && ms[i].key == key
  }

  /** Alike: the same shape, the same keys in any order, and leaves that are the same. */
  predicate Alike(same: (string, string) -> bool, a: Json, b: Json)
    decreases a
  {
    match a
    case Str(s) => b.Str? && same(s, b.s)
    case Arr(items) => b.Arr? && |items| == |b.items| && forall i :: 0 <= i < |items| ==> Alike(same, items[i], b.items[i])
    case Obj(ms) => b.Obj? && AlikeMembers(same, ms, b.members)
    case _ => a == b
  }

  predicate AlikeMembers(same: (string, string) -> bool, ms: seq<Member>, ns: seq<Member>)
    decreases ms
  {
    && (forall i :: 0 <= i < |ms| ==> HasAlike(same, ms[i], ns))
    && (forall j :: 0 <= j < |ns| ==> HasKey(ms, ns[j].key))
  }

  predicate HasAlike(same: (string, string) -> bool, m: Member, ns: seq<Member>)
    decreases m
  {
    exists j :: 0 <= j < |ns| && ns[j].key == m.key && Alike(same, m.value, ns[j].value)
  }

  /** The leaf rewriting identifies exactly the strings that count as the same. */
  ghost predicate Decides(leaf: string -> string, same: (string, string) -> bool) {
    forall s, t :: leaf(s) == leaf(t) <==> same(s, t)
  }

  lemma {:induction false} SameKeysSameOrder(lt: (string, string) -> bool, p: seq<Member>, q: seq<Member>)
    requires StrictOrder(lt) && Ascending(lt, p) && Ascending(lt, q)
    requires forall i :: 0 <= i < |p| ==> HasKey(q, p[i].key)
    requires forall j :: 0 <= j < |q| ==> HasKey(p, q[j].key)
    ensures |p| == |q| && forall i :: 0 <= i < |p| ==> p[i].key == q[i].key
    decreases |p|
  {
    if p == [] || q == [] {
      assert p != [] ==> HasKey(q, p[0].key);
      assert q != [] ==> HasKey(p, q[0].key);
    } else {
      assert HasKey(q, p[0].key) && HasKey(p, q[0].key);
      assert p[0].key == q[0].key;
      TailKeys(lt, p, q);
      TailKeys(lt, q, p);
      SameKeysSameOrder(lt, p[1..], q[1..]);
      assert forall i :: 0 < i < |p| ==> p[i] == p[1..][i - 1] && q[i] == q[1..][i - 1];
    }
  }

  lemma TailKeys(lt: (string, string) -> bool, p: seq<Member>, q: seq<Member>)
    requires StrictOrder(lt) && Ascending(lt, p) && p != [] && q != [] && p[0].key == q[0].key
    requires forall i :: 0 <= i < |p| ==> HasKey(q, p[i].key)
    ensures forall i :: 0 <= i < |p[1..]| ==> HasKey(q[1..], p[1..][i].key)
  {
    forall i | 0 <= i < |p[1..]| ensures HasKey(q[1..], p[1..][i].key) {
      assert HasKey(q, p[i + 1].key);
      var j :| 0 <= j < |q| && q[j].key == p[i + 1].key;
      assert q[1..][j - 1].key == p[1..][i].key;
    }
  }

  /** Entry by entry, the rewritten values agree exactly when the values are alike. */
  ghost predicate PairwiseDecided(lt: (string, string) -> bool, leaf: string -> string, same: (string, string) -> bool,
                                  p: seq<Member>, q: seq<Member>)
  {
    forall i :: 0 <= i < |p| && i < |q| ==>
      (Arrange(lt, leaf, p[i].value) == Arrange(lt, leaf, q[i].value) <==> Alike(same, p[i].value, q[i].value))
  }

  lemma SortedKeyPresent(lt: (string, string) -> bool, ms: seq<Member>, key: string)
    ensures HasKey(ms, key) <==> HasKey(SortMembers(lt, ms), key)
  {
    SortKeepsMembers(lt, ms);
    var p := SortMembers(lt, ms);
    if HasKey(ms, key) {
      var i :| 0 <= i < |ms| && ms[i].key == key;
      assert ms[i] in p;
    }
    if HasKey(p, key) {
      var i :| 0 <= i < |p| && p[i].key == key;
      assert p[i] in ms;
    }
  }

  lemma SortedAt(lt: (string, string) -> bool, ms: seq<Member>, k: nat) returns (i: nat)
    requires k < |ms|
    ensures i < |SortMembers(lt, ms)| && SortMembers(lt, ms)[i] == ms[k]
  {
    var p := SortMembers(lt, ms);
    assert ms[k] in multiset(ms);
    assert ms[k] in multiset(p);
    i :| i < |p| && p[i] == ms[k];
  }

  lemma UnsortedAt(lt: (string, string) -> bool, ms: seq<Member>, i: nat) returns (k: nat)
    requires i < |SortMembers(lt, ms)|
    ensures k < |ms| && ms[k] == SortMembers(lt, ms)[i]
  {
    var p := SortMembers(lt, ms);
    assert p[i] in multiset(p);
    assert p[i] in multiset(ms);
    k :| k < |ms| && ms[k] == p[i];
  }

  /** Sorted entries that agree pairwise are alike as sets. */
  lemma PairwiseAlike(lt: (string, string) -> bool, same: (string, string) -> bool, ms: seq<Member>, ns: seq<Member>)
    requires var p, q := SortMembers(lt, ms), SortMembers(lt, ns);
      |p| == |q| && forall i :: 0 <= i < |p| ==> p[i].key == q[i].key && Alike(same, p[i].value, q[i].value)
    ensures AlikeMembers(same, ms, ns)
  {
    forall k | 0 <= k < |ms| ensures HasAlike(same, ms[k], ns) {
      var i := SortedAt(lt, ms, k);
      var j := UnsortedAt(lt, ns, i);
    }
    forall k | 0 <= k < |ns| ensures HasKey(ms, ns[k].key) {
      var i := SortedAt(lt, ns, k);
      var j := UnsortedAt(lt, ms, i);
    }
  }

  lemma EqualEntriesAreAlike(lt: (string, string) -> bool, leaf: string -> string, same: (string, string) -> bool,
                             ms: seq<Member>, ns: seq<Member>)
    requires PairwiseDecided(lt, leaf, same, SortMembers(lt, ms), SortMembers(lt, ns))
    requires ArrangeMembers(lt, leaf, SortMembers(lt, ms)) == ArrangeMembers(lt, leaf, SortMembers(lt, ns))
    ensures AlikeMembers(same, ms, ns)
  {
    var p, q := SortMembers(lt, ms), SortMembers(lt, ns);
    var p', q' := ArrangeMembers(lt, leaf, p), ArrangeMembers(lt, leaf, q);
    assert forall i :: 0 <= i < |p| ==> p'[i] == q'[i] && p[i].key == q[i].key && Alike(same, p[i].value, q[i].value);
    PairwiseAlike(lt, same, ms, ns);
  }

  lemma AlikeKeysLineUp(lt: (string, string) -> bool, same: (string, string) -> bool, ms: seq<Member>, ns: seq<Member>)
    requires StrictOrder(lt) && DistinctKeys(ms) && DistinctKeys(ns) && AlikeMembers(same, ms, ns)
    ensures var p, q := SortMembers(lt, ms), SortMembers(lt, ns);
      |p| == |q| && forall i :: 0 <= i < |p| ==> p[i].key == q[i].key && HasAlike(same, p[i], ns)
  {
    var p, q := SortMembers(lt, ms), SortMembers(lt, ns);
    SortKeepsMembers(lt, ms);
    SortKeepsMembers(lt, ns);
    SortAscends(lt, ms);
    SortAscends(lt, ns);
    forall i | 0 <= i < |p| ensures HasKey(q, p[i].key) && HasAlike(same, p[i], ns) {
      assert p[i] in ms;
      var k :| 0 <= k < |ms| && ms[k] == p[i];
      assert HasAlike(same, ms[k], ns);
      SortedKeyPresent(lt, ns, p[i].key);
    }
    forall j | 0 <= j < |q| ensures HasKey(p, q[j].key) {
      assert q[j] in ns;
      var k :| 0 <= k < |ns| && ns[k] == q[j];
      assert HasKey(ms, ns[k].key);
      SortedKeyPresent(lt, ms, q[j].key);
    }
    SameKeysSameOrder(lt, p, q);
  }

  lemma EntryOfKey(lt: (string, string) -> bool, same: (string, string) -> bool, m: Member, ns: seq<Member>, i: nat)
    requires StrictOrder(lt) && DistinctKeys(ns) && HasAlike(same, m, ns)
    requires i < |ns| && SortMembers(lt, ns)[i].key == m.key
    ensures Alike(same, m.value, SortMembers(lt, ns)[i].value)
  {
    var q := SortMembers(lt, ns);
    SortKeepsMembers(lt, ns);
    var k :| 0 <= k < |ns| && ns[k].key == m.key && Alike(same, m.value, ns[k].value);
    assert q[i] in ns;
    var j :| 0 <= j < |ns| && ns[j] == q[i];
    assert j == k;
  }

  lemma AlikeEntriesLineUp(lt: (string, string) -> bool, same: (string, string) -> bool, ms: seq<Member>, ns: seq<Member>)
    requires StrictOrder(lt) && DistinctKeys(ms) && DistinctKeys(ns) && AlikeMembers(same, ms, ns)
    ensures var p, q := SortMembers(lt, ms), SortMembers(lt, ns);
      |p| == |q| && forall i :: 0 <= i < |p| ==> p[i].key == q[i].key && Alike(same, p[i].value, q[i].value)
  {
    AlikeKeysLineUp(lt, same, ms, ns);
    var p := SortMembers(lt, ms);
    forall i | 0 <= i < |p| ensures Alike(same, p[i].value, SortMembers(lt, ns)[i].value) {
      EntryOfKey(lt, same, p[i], ns, i);
    }
  }

  /** Arranging decides sameness: equal results exactly for alike values. */
  lemma {:induction false} ArrangeDecides(lt: (string, string) -> bool, leaf: string -> string,
                                          same: (string, string) -> bool, a: Json, b: Json)
    requires StrictOrder(lt) && Decides(leaf, same) && WellFormed(a) && WellFormed(b)
    ensures Arrange(lt, leaf, a) == Arrange(lt, leaf, b) <==> Alike(same, a, b)
    decreases Size(a), 1
  {
    if a.Arr? && b.Arr? {
      ItemsDecide(lt, leaf, same, a.items, b.items);
    } else if a.Obj? && b.Obj? {
      MembersDecide(lt, leaf, same, a.members, b.members);
    }
  }

  lemma {:induction false} ItemsDecide(lt: (string, string) -> bool, leaf: string -> string,
                                       same: (string, string) -> bool, xs: seq<Json>, ys: seq<Json>)
    requires StrictOrder(lt) && Decides(leaf, same) && WellFormed(Arr(xs)) && WellFormed(Arr(ys))
    ensures ArrangeItems(lt, leaf, xs) == ArrangeItems(lt, leaf, ys) <==> Alike(same, Arr(xs), Arr(ys))
    decreases ItemsSize(xs), 2
  {
    var p, q := ArrangeItems(lt, leaf, xs), ArrangeItems(lt, leaf, ys);
    forall i | 0 <= i < |xs| && i < |ys| ensures p[i] == q[i] <==> Alike(same, xs[i], ys[i]) {
      assert p[i] == Arrange(lt, leaf, xs[i]) && q[i] == Arrange(lt, leaf, ys[i]);
      ArrangeDecides(lt, leaf, same, xs[i], ys[i]);
    }
  }

  lemma {:induction false} MembersDecide(lt: (string, string) -> bool, leaf: string -> string,
                                         same: (string, string) -> bool, ms: seq<Member>, ns: seq<Member>)
    requires StrictOrder(lt) && Decides(leaf, same) && WellFormed(Obj(ms)) && WellFormed(Obj(ns))
    ensures ArrangeMembers(lt, leaf, SortMembers(lt, ms)) == ArrangeMembers(lt, leaf, SortMembers(lt, ns))
            <==> AlikeMembers(same, ms, ns)
    decreases MembersSize(ms), 2
  {
    var p, q := SortMembers(lt, ms), SortMembers(lt, ns);
    var p', q' := ArrangeMembers(lt, leaf, p), ArrangeMembers(lt, leaf, q);
    forall i | 0 <= i < |p| && i < |q|
      ensures Arrange(lt, leaf, p[i].value) == Arrange(lt, leaf, q[i].value) <==> Alike(same, p[i].value, q[i].value)
    {
      SortKeepsMembers(lt, ms);
      SortKeepsMembers(lt, ns);
      assert p[i] in ms && q[i] in ns && p'[i].key == p[i].key;
      ArrangeDecides(lt, leaf, same, p[i].value, q[i].value);
    }
    if p' == q' {
      EqualEntriesAreAlike(lt, leaf, same, ms, ns);
    }
    if AlikeMembers(same, ms, ns) {
      AlikeEntriesLineUp(lt, same, ms, ns);
      assert forall i :: 0 <= i < |p| ==> p'[i] == q'[i];
    }
  }
}
