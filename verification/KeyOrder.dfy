/** Sorting keys by a strict total order. The order itself, by code units or by locale, stays a
    parameter. */
module KeyOrder {

  ghost predicate StrictOrder(lt: (string, string) -> bool) {
    && (forall s :: !lt(s, s))
    && (forall s, t, u :: lt(s, t) && lt(t, u) ==> lt(s, u))
    && (forall s, t :: s != t ==> lt(s, t) || lt(t, s))
  }

  function Insert(lt: (string, string) -> bool, key: string, keys: seq<string>): (r: seq<string>)
    ensures multiset(r) == multiset{key} + multiset(keys)
  {
    if keys == [] || lt(key, keys[0]) then [key] + keys
    else
      assert keys == [keys[0]] + keys[1..];
      [keys[0]] + Insert(lt, key, keys[1..])
  }

  function Sort(lt: (string, string) -> bool, keys: seq<string>): (r: seq<string>)
    ensures multiset(r) == multiset(keys)
  {
    if keys == [] then []
    else
      assert keys == [keys[0]] + keys[1..];
      Insert(lt, keys[0], Sort(lt, keys[1..]))
  }

  predicate Ascending(lt: (string, string) -> bool, keys: seq<string>) {
    forall i, j :: 0 <= i < j < |keys| ==> lt(keys[i], keys[j])
  }

  predicate Distinct(keys: seq<string>) {
    forall i, j :: 0 <= i < j < |keys| ==> keys[i] != keys[j]
  }

  lemma SameElements(a: seq<string>, b: seq<string>, k: string)
    requires multiset(a) == multiset(b)
    ensures k in a <==> k in b
  {
    assert k in multiset(a) <==> k in multiset(b);
  }

  lemma {:induction false} InsertAscends(lt: (string, string) -> bool, key: string, keys: seq<string>)
    requires StrictOrder(lt) && Ascending(lt, keys) && key !in keys
    ensures Ascending(lt, Insert(lt, key, keys))
    decreases |keys|
  {
    if keys != [] && !lt(key, keys[0]) {
      InsertAscends(lt, key, keys[1..]);
      var rest := Insert(lt, key, keys[1..]);
      forall i | 0 <= i < |rest| ensures lt(keys[0], rest[i]) {
        assert rest[i] in multiset(rest);
        assert rest[i] == key || rest[i] in keys[1..];
      }
    }
  }

  lemma {:induction false} SortAscends(lt: (string, string) -> bool, keys: seq<string>)
    requires StrictOrder(lt) && Distinct(keys)
    ensures Ascending(lt, Sort(lt, keys))
    decreases |keys|
  {
    if keys != [] {
      SortAscends(lt, keys[1..]);
      SameElements(Sort(lt, keys[1..]), keys[1..], keys[0]);
      InsertAscends(lt, keys[0], Sort(lt, keys[1..]));
    }
  }

  lemma {:induction false} AscendingUnique(lt: (string, string) -> bool, a: seq<string>, b: seq<string>)
    requires StrictOrder(lt) && Ascending(lt, a) && Ascending(lt, b)
    requires forall k :: k in a <==> k in b
    ensures a == b
    decreases |a|
  {
    assert a != [] ==> a[0] in b;
    assert b != [] ==> b[0] in a;
    if a != [] && b != [] {
      assert a[0] == b[0];
      assert a == [a[0]] + a[1..] && b == [b[0]] + b[1..];
      forall k ensures k in a[1..] <==> k in b[1..] {
        assert k in a <==> k == a[0] || k in a[1..];
        assert k in b <==> k == b[0] || k in b[1..];
      }
      AscendingUnique(lt, a[1..], b[1..]);
    }
  }
}
