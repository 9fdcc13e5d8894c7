/**
 * The `ORDER BY` of the store's queries: a stable insertion sort by a key
 * under a total preorder, and the orders the queries use (numbers ascending
 * or descending, text by character code as SQLite's BINARY collation does).
 */
module Ordering {

  ghost predicate Total<K(!new)>(le: (K, K) -> bool) {
    forall a, b :: le(a, b) || le(b, a)
  }

  ghost predicate Transitive<K(!new)>(le: (K, K) -> bool) {
    forall a, b, c :: le(a, b) && le(b, c) ==> le(a, c)
  }

  ghost predicate TotalPreorder<K(!new)>(le: (K, K) -> bool) {
    Total(le) && Transitive(le)
  }

  /** Every element is at or before every later one under `le` on its key. */
  ghost predicate SortedBy<T, K>(s: seq<T>, key: T -> K, le: (K, K) -> bool) {
    forall i, j :: 0 <= i < j < |s| ==> le(key(s[i]), key(s[j]))
  }

  /** A sorted sequence stays sorted under a new head at or below all of it. */
  lemma SortedCons<T, K>(h: T, t: seq<T>, key: T -> K, le: (K, K) -> bool)
    requires SortedBy(t, key, le)
    requires forall y :: y in t ==> le(key(h), key(y))
    ensures SortedBy([h] + t, key, le)
  {
    var r := [h] + t;
    forall i, j | 0 <= i < j < |r| ensures le(key(r[i]), key(r[j])) {
      if i == 0 {
        assert r[j] == t[j - 1];
        assert r[j] in t;
      } else {
        assert r[i] == t[i - 1] && r[j] == t[j - 1];
      }
    }
  }

  /** Puts `x` in front of the first element whose key is not below it. */
  function InsertBy<T, K(!new)>(x: T, s: seq<T>, key: T -> K, le: (K, K) -> bool): (r: seq<T>)
    requires TotalPreorder(le)
    requires SortedBy(s, key, le)
    ensures multiset(r) == multiset(s) + multiset{x}
    ensures SortedBy(r, key, le)
  {
    if s == [] then [x]
    else if le(key(x), key(s[0])) then
      assert forall y :: y in s ==> le(key(x), key(y)) by {
        forall y | y in s ensures le(key(x), key(y)) {
          var k :| 0 <= k < |s| && s[k] == y;
          if k > 0 { assert le(key(s[0]), key(s[k])); }
        }
      }
      SortedCons(x, s, key, le);
      [x] + s
    else
      assert s == [s[0]] + s[1..];
      assert SortedBy(s[1..], key, le) by {
        forall i, j | 0 <= i < j < |s[1..]| ensures le(key(s[1..][i]), key(s[1..][j])) {
          assert s[1..][i] == s[i + 1] && s[1..][j] == s[j + 1];
        }
      }
      var rest := InsertBy(x, s[1..], key, le);
      assert forall y :: y in rest ==> le(key(s[0]), key(y)) by {
        forall y | y in rest ensures le(key(s[0]), key(y)) {
          assert y in multiset(rest);
          if y != x {
            assert y in multiset(s[1..]);
            var k :| 0 <= k < |s[1..]| && s[1..][k] == y;
            assert s[k + 1] == y;
          }
        }
      }
      SortedCons(s[0], rest, key, le);
      [s[0]] + rest
  }

  function SortBy<T, K(!new)>(s: seq<T>, key: T -> K, le: (K, K) -> bool): (r: seq<T>)
    requires TotalPreorder(le)
    ensures multiset(r) == multiset(s)
    ensures SortedBy(r, key, le)
  {
    if s == [] then []
    else
      assert s == [s[0]] + s[1..];
      InsertBy(s[0], SortBy(s[1..], key, le), key, le)
  }

  function IntLe(a: int, b: int): bool { a <= b }
  function IntGe(a: int, b: int): bool { a >= b }

  lemma IntOrders()
    ensures TotalPreorder(IntLe) && TotalPreorder(IntGe)
  {
  }

  /** Text comparison by character code, shorter prefix first. */
  function StrLe(a: string, b: string): bool {
    if a == [] then true
    else if b == [] then false
    else if a[0] != b[0] then a[0] < b[0]
    else StrLe(a[1..], b[1..])
  }

  lemma {:induction false} StrLeTotalAt(a: string, b: string)
    ensures StrLe(a, b) || StrLe(b, a)
  {
    if a != [] && b != [] && a[0] == b[0] {
      StrLeTotalAt(a[1..], b[1..]);
    }
  }

  lemma {:induction false} StrLeTransitiveAt(a: string, b: string, c: string)
    requires StrLe(a, b) && StrLe(b, c)
    ensures StrLe(a, c)
  {
    if a != [] && b != [] && c != [] && a[0] == b[0] && b[0] == c[0] {
      StrLeTransitiveAt(a[1..], b[1..], c[1..]);
    }
  }

  lemma StrLeTotalPreorder()
    ensures TotalPreorder(StrLe)
  {
    forall a, b ensures StrLe(a, b) || StrLe(b, a) {
      StrLeTotalAt(a, b);
    }
    forall a, b, c | StrLe(a, b) && StrLe(b, c) ensures StrLe(a, c) {
      StrLeTransitiveAt(a, b, c);
    }
  }
}
