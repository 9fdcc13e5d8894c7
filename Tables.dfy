/**
 * One table of the store: rows under integer ids handed out by a counter,
 * the generic `insert` and `update`, lookup by id, and filtered, ordered
 * selection (`SELECT * ... WHERE ... ORDER BY ...`).
 */
module Tables {
  import opened Records
  import opened Ordering

  /** A stored row and the `updated_at` column that every `update` stamps. */
  datatype Row<R> = Row(data: R, updatedAt: Option<Time>)

  /** `next` is the id the next insert will receive. */
  datatype Table<R> = Table(rows: map<int, Row<R>>, next: int)

  /** A row as a query returns it: its id together with its columns. */
  datatype Entry<R> = Entry(id: int, data: R)

  ghost predicate WellFormed<R>(t: Table<R>) {
    t.next >= 1 && forall k :: k in t.rows ==> 1 <= k < t.next
  }

  function Empty<R>(): (t: Table<R>)
    ensures WellFormed(t) && t.rows == map[]
  {
    Table(map[], 1)
  }

  /**
   * `insert(table, data)`: exactly one new row, under an id that was not in
   * use, and every existing row as it was.
   */
  function Insert<R>(t: Table<R>, data: R): (r: (Table<R>, int))
    requires WellFormed(t)
    ensures WellFormed(r.0)
    ensures r.1 >= 1 && r.1 !in t.rows
    ensures r.0.rows.Keys == t.rows.Keys + {r.1}
    ensures |r.0.rows| == |t.rows| + 1
    ensures r.0.rows[r.1] == Row(data, None)
    ensures forall k :: k in t.rows ==> r.0.rows[k] == t.rows[k]
  {
    (Table(t.rows[t.next := Row(data, None)], t.next + 1), t.next)
  }

  /**
   * `update(table, id, data)`: true iff a row with that id exists; then that
   * row alone takes the patched columns and a new `updated_at`, otherwise the
   * table is unchanged.
   */
  function Update<R, P>(t: Table<R>, id: int, p: P, apply: (R, P) -> R, now: Time): (r: (Table<R>, bool))
    ensures r.1 <==> id in t.rows
    ensures !r.1 ==> r.0 == t
    ensures r.0.rows.Keys == t.rows.Keys && r.0.next == t.next
    ensures WellFormed(t) ==> WellFormed(r.0)
    ensures r.1 ==> r.0.rows[id] == Row(apply(t.rows[id].data, p), Some(now))
    ensures forall k :: k in t.rows && k != id ==> r.0.rows[k] == t.rows[k]
  {
    if id in t.rows then
      (Table(t.rows[id := Row(apply(t.rows[id].data, p), Some(now))], t.next), true)
    else
      (t, false)
  }

  /** `SELECT * ... WHERE id=?`: a missing id, or a NULL one, finds nothing. */
  function Get<R>(t: Table<R>, id: Option<int>): (r: Option<Entry<R>>)
    ensures r.Some? <==> id.Some? && id.value in t.rows
    ensures r.Some? ==> r.value.id == id.value && r.value.data == t.rows[id.value].data
  {
    if id.Some? && id.value in t.rows then Some(Entry(id.value, t.rows[id.value].data)) else None
  }

  /** The entry is the current content of a stored row that satisfies `p`. */
  ghost predicate Matches<R>(t: Table<R>, p: R -> bool, e: Entry<R>) {
    e.id in t.rows && e.data == t.rows[e.id].data && p(e.data)
  }

  ghost function MatchingIds<R>(t: Table<R>, p: R -> bool): set<int> {
    set k | k in t.rows && p(t.rows[k].data)
  }

  /** The matching rows with ids up to `hi`, in ascending id order. */
  function ScanUpTo<R>(t: Table<R>, p: R -> bool, hi: int): (r: seq<Entry<R>>)
    ensures forall i, j :: 0 <= i < j < |r| ==> r[i].id < r[j].id
    ensures forall i :: 0 <= i < |r| ==> 1 <= r[i].id <= hi
    decreases hi
  {
    if hi < 1 then []
    else
      ScanUpTo(t, p, hi - 1) +
      (if hi in t.rows && p(t.rows[hi].data) then [Entry(hi, t.rows[hi].data)] else [])
  }

  lemma {:induction false} ScanUpToOnce<R(!new)>(t: Table<R>, p: R -> bool, hi: int)
    ensures forall e :: multiset(ScanUpTo(t, p, hi))[e] == if 1 <= e.id <= hi && Matches(t, p, e) then 1 else 0
    decreases hi
  {
    if hi >= 1 {
      ScanUpToOnce(t, p, hi - 1);
      var before := ScanUpTo(t, p, hi - 1);
      var last := if hi in t.rows && p(t.rows[hi].data) then [Entry(hi, t.rows[hi].data)] else [];
      assert ScanUpTo(t, p, hi) == before + last;
      forall e ensures multiset(ScanUpTo(t, p, hi))[e] == if 1 <= e.id <= hi && Matches(t, p, e) then 1 else 0 {
        assert multiset(before + last)[e] == multiset(before)[e] + multiset(last)[e];
        if e.id == hi {
          assert multiset(before)[e] == 0;
        } else {
          assert multiset(last)[e] == 0;
        }
      }
    }
  }

  ghost function MatchingIdsUpTo<R>(t: Table<R>, p: R -> bool, hi: int): set<int> {
    set k | k in t.rows && 1 <= k <= hi && p(t.rows[k].data)
  }

  lemma {:induction false} ScanUpToSize<R>(t: Table<R>, p: R -> bool, hi: int)
    ensures |ScanUpTo(t, p, hi)| == |MatchingIdsUpTo(t, p, hi)|
    decreases hi
  {
    if hi < 1 {
      assert MatchingIdsUpTo(t, p, hi) == {};
    } else {
      ScanUpToSize(t, p, hi - 1);
      if hi in t.rows && p(t.rows[hi].data) {
        assert MatchingIdsUpTo(t, p, hi) == MatchingIdsUpTo(t, p, hi - 1) + {hi};
      } else {
        assert MatchingIdsUpTo(t, p, hi) == MatchingIdsUpTo(t, p, hi - 1);
      }
    }
  }

  /**
   * `SELECT * FROM t WHERE p` with no `ORDER BY`: every matching row exactly
   * once (the model lists them by ascending id).
   */
  function Select<R(!new)>(t: Table<R>, p: R -> bool): (r: seq<Entry<R>>)
    requires WellFormed(t)
    ensures forall e :: multiset(r)[e] == if Matches(t, p, e) then 1 else 0
    ensures forall e :: e in r <==> Matches(t, p, e)
    ensures |r| == |MatchingIds(t, p)|
  {
    var r := ScanUpTo(t, p, t.next - 1);
    ScanUpToOnce(t, p, t.next - 1);
    ScanUpToSize(t, p, t.next - 1);
    assert MatchingIdsUpTo(t, p, t.next - 1) == MatchingIds(t, p);
    assert forall e :: e in r <==> multiset(r)[e] > 0;
    r
  }

  /**
   * `SELECT * FROM t WHERE p ORDER BY key`: every matching row exactly once,
   * sorted by the key; the order among equal keys is not specified.
   */
  function Query<R(!new), K(!new)>(t: Table<R>, p: R -> bool, key: Entry<R> -> K, le: (K, K) -> bool): (r: seq<Entry<R>>)
    requires WellFormed(t)
    requires TotalPreorder(le)
    ensures forall e :: multiset(r)[e] == if Matches(t, p, e) then 1 else 0
    ensures forall e :: e in r <==> Matches(t, p, e)
    ensures |r| == |MatchingIds(t, p)|
    ensures SortedBy(r, key, le)
  {
    var r := SortBy(Select(t, p), key, le);
    assert forall e :: e in r <==> multiset(r)[e] > 0;
    assert |r| == |multiset(r)|;
    r
  }
}
