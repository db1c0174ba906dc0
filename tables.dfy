/**
 * The relational semantics shared by the data-access objects: a table is a
 * map from primary key to row, a query result is a sequence of stored rows.
 * `INSERT OR REPLACE` is an upsert, Room's `@Update` and `@Delete` act on the
 * row with the entity's primary key, and `ORDER BY` fixes the order only up
 * to ties, so a query's result is characterised rather than computed.
 */
module Tables {
  import opened Wrappers

  /** Every row is stored under its own primary key. */
  ghost predicate Keyed<K, R>(rows: map<K, R>, key: R -> K) {
    forall k :: k in rows ==> key(rows[k]) == k
  }

  /** `before(a, b)`: `a` may come before `b` under the query's ORDER BY. */
  ghost predicate TotalPreorder<R(!new)>(before: (R, R) -> bool) {
    && (forall a, b :: before(a, b) || before(b, a))
    && (forall a, b, c :: before(a, b) && before(b, c) ==> before(a, c))
  }

  ghost predicate Sorted<R>(s: seq<R>, before: (R, R) -> bool) {
    forall i, j :: 0 <= i < j < |s| ==> before(s[i], s[j])
  }

  /** Every element of `s` is a row of the table, as stored. */
  ghost predicate Stored<K, R>(rows: map<K, R>, key: R -> K, s: seq<R>) {
    forall i :: 0 <= i < |s| ==> key(s[i]) in rows && rows[key(s[i])] == s[i]
  }

  /** No row appears twice. */
  ghost predicate DistinctKeys<K, R>(s: seq<R>, key: R -> K) {
    forall i, j :: 0 <= i < j < |s| ==> key(s[i]) != key(s[j])
  }

  /** `SELECT * FROM t WHERE matches ORDER BY before`: exactly the matching rows, once each, in order. */
  ghost predicate IsSelection<K, R>(rows: map<K, R>, key: R -> K, matches: R -> bool,
                                    before: (R, R) -> bool, s: seq<R>) {
    && Stored(rows, key, s)
    && DistinctKeys(s, key)
    && Sorted(s, before)
    && (forall i :: 0 <= i < |s| ==> matches(s[i]))
    && (forall k :: k in rows && matches(rows[k]) ==> rows[k] in s)
  }

  /** The same query with `LIMIT limit`: a negative limit keeps every row; otherwise at most
      `limit` rows are kept, and a matching row is left out only when the result is full
      and the row ranks no earlier than every row kept. */
  ghost predicate IsLimitedSelection<K, R>(rows: map<K, R>, key: R -> K, matches: R -> bool,
                                           before: (R, R) -> bool, limit: int, s: seq<R>) {
    if limit < 0 then IsSelection(rows, key, matches, before, s)
    else
      && Stored(rows, key, s)
      && DistinctKeys(s, key)
      && Sorted(s, before)
      && (forall i :: 0 <= i < |s| ==> matches(s[i]))
      && |s| <= limit
      && (forall k :: k in rows && matches(rows[k]) && rows[k] !in s ==>
            |s| == limit && forall i :: 0 <= i < |s| ==> before(s[i], rows[k]))
  }

  // ---------------------------------------------------------------------
  // Writes

  /** `@Insert(onConflict = REPLACE)` of one row. */
  function Upsert<K(==), R>(rows: map<K, R>, key: R -> K, row: R): (r: map<K, R>)
    ensures Keyed(rows, key) ==> Keyed(r, key)
    ensures key(row) in r && r[key(row)] == row
    ensures r.Keys == rows.Keys + {key(row)}
    ensures forall k :: k in rows && k != key(row) ==> r[k] == rows[k]
  {
    rows[key(row) := row]
  }

  /** The last row of `batch` whose primary key is `k`, if any. */
  function LastWithKey<K(==), R>(batch: seq<R>, key: R -> K, k: K): (r: Option<R>)
    ensures r.None? <==> forall i :: 0 <= i < |batch| ==> key(batch[i]) != k
    ensures r.Some? ==> key(r.value) == k && r.value in batch
  {
    if batch == [] then None
    else if key(batch[|batch| - 1]) == k then Some(batch[|batch| - 1])
    else LastWithKey(batch[..|batch| - 1], key, k)
  }

  /** `@Insert(onConflict = REPLACE)` of a list: the rows are written in order, so for each
      key the last row of the batch with that key is the one that stays. */
  function UpsertAll<K(==), R>(rows: map<K, R>, key: R -> K, batch: seq<R>): (r: map<K, R>)
    ensures Keyed(rows, key) ==> Keyed(r, key)
    ensures r.Keys == rows.Keys + set i | 0 <= i < |batch| :: key(batch[i])
    ensures forall k :: k in r ==>
              r[k] == if LastWithKey(batch, key, k).Some? then LastWithKey(batch, key, k).value else rows[k]
    decreases |batch|
  {
    if batch == [] then rows
    else
      var prefix := batch[..|batch| - 1];
      var r := Upsert(UpsertAll(rows, key, prefix), key, batch[|batch| - 1]);
      assert forall i :: 0 <= i < |prefix| ==> prefix[i] == batch[i];
      assert (set i | 0 <= i < |batch| :: key(batch[i]))
          == (set i | 0 <= i < |prefix| :: key(prefix[i])) + {key(batch[|batch| - 1])};
      r
  }

  /** Writing one row as a batch is writing that row. */
  lemma UpsertAllSingle<K, R>(rows: map<K, R>, key: R -> K, row: R)
    ensures UpsertAll(rows, key, [row]) == Upsert(rows, key, row)
  {
    assert [row][..0] == [];
  }

  /** Writing the same batch twice leaves the table as writing it once. */
  lemma {:induction false} UpsertAllIdempotent<K, R>(rows: map<K, R>, key: R -> K, batch: seq<R>)
    ensures UpsertAll(UpsertAll(rows, key, batch), key, batch) == UpsertAll(rows, key, batch)
  {
    var once := UpsertAll(rows, key, batch);
    var twice := UpsertAll(once, key, batch);
    assert twice.Keys == once.Keys;
    forall k | k in twice
      ensures twice[k] == once[k]
    {
      if LastWithKey(batch, key, k).None? {
        assert twice[k] == once[k];
      }
    }
  }

  /** `@Update`: replaces the row with the entity's key; no row with that key, no change. */
  function UpdateExisting<K(==), R>(rows: map<K, R>, key: R -> K, row: R): (r: map<K, R>)
    ensures Keyed(rows, key) ==> Keyed(r, key)
    ensures r.Keys == rows.Keys
    ensures key(row) in rows ==> r[key(row)] == row
    ensures key(row) !in rows ==> r == rows
    ensures forall k :: k in rows && k != key(row) ==> r[k] == rows[k]
  {
    if key(row) in rows then rows[key(row) := row] else rows
  }

  /** `UPDATE t SET column = value WHERE id = :id`, with `change` setting the column. */
  function UpdateColumn<K(==), R>(rows: map<K, R>, k: K, change: R -> R): (r: map<K, R>)
    ensures r.Keys == rows.Keys
    ensures k in rows ==> r[k] == change(rows[k])
    ensures forall j :: j in rows && j != k ==> r[j] == rows[j]
  {
    if k in rows then rows[k := change(rows[k])] else rows
  }

  /** `DELETE FROM t WHERE matches`. */
  function DeleteWhere<K(==), R>(rows: map<K, R>, matches: R -> bool): (r: map<K, R>)
    ensures forall k :: k in rows && !matches(rows[k]) ==> k in r
    ensures forall k :: k in r ==> k in rows && !matches(rows[k])
    ensures forall k :: k in r ==> r[k] == rows[k]
  {
    map k | k in rows && !matches(rows[k]) :: rows[k]
  }

  /** After a delete nothing the delete matched is left, and deleting again changes nothing. */
  lemma DeleteWhereIdempotent<K, R>(rows: map<K, R>, matches: R -> bool)
    ensures forall k :: k in DeleteWhere(rows, matches) ==> !matches(DeleteWhere(rows, matches)[k])
    ensures DeleteWhere(DeleteWhere(rows, matches), matches) == DeleteWhere(rows, matches)
  {
  }

  /** `SELECT * FROM t WHERE id = :id` on the primary key. */
  function Lookup<K(==), R>(rows: map<K, R>, key: R -> K, k: K): (r: Option<R>)
    requires Keyed(rows, key)
    ensures r.None? <==> k !in rows
    ensures r.Some? ==> r.value == rows[k] && key(r.value) == k
  {
    if k in rows then Some(rows[k]) else None
  }

  // ---------------------------------------------------------------------
  // Reads

  /** Where a row goes in a sorted result: after everything ranked before it. */
  method InsertionPoint<R(!new)>(s: seq<R>, x: R, before: (R, R) -> bool) returns (i: nat)
    requires TotalPreorder(before)
    requires Sorted(s, before)
    ensures i <= |s|
    ensures forall j :: 0 <= j < i ==> before(s[j], x)
    ensures forall j :: i <= j < |s| ==> before(x, s[j])
  {
    i := 0;
    while i < |s| && before(s[i], x)
      invariant i <= |s|
      invariant forall j :: 0 <= j < i ==> before(s[j], x)
    {
      i := i + 1;
    }
    if i < |s| {
      assert before(x, s[i]);
      forall j | i <= j < |s|
        ensures before(x, s[j])
      {
        if j > i {
          assert before(s[i], s[j]);
        }
      }
    }
  }

  /** `s` with `x` placed at index `i`. */
  function Inserted<R>(s: seq<R>, i: nat, x: R): (t: seq<R>)
    requires i <= |s|
    ensures |t| == |s| + 1 && t[i] == x
    ensures forall j :: 0 <= j < i ==> t[j] == s[j]
    ensures forall j :: i < j < |t| ==> t[j] == s[j - 1]
  {
    s[..i] + [x] + s[i..]
  }

  /** Inserting at an insertion point keeps a result sorted and its keys distinct. */
  lemma InsertKeepsOrder<K, R(!new)>(s: seq<R>, x: R, i: nat, key: R -> K, before: (R, R) -> bool)
    requires i <= |s| && Sorted(s, before) && DistinctKeys(s, key)
    requires forall j :: 0 <= j < i ==> before(s[j], x)
    requires forall j :: i <= j < |s| ==> before(x, s[j])
    requires forall j :: 0 <= j < |s| ==> key(s[j]) != key(x)
    ensures Sorted(Inserted(s, i, x), before)
    ensures DistinctKeys(Inserted(s, i, x), key)
  {
    var t := Inserted(s, i, x);
    forall a, b | 0 <= a < b < |t|
      ensures before(t[a], t[b]) && key(t[a]) != key(t[b])
    {
      if b < i {
      } else if a < i && b == i {
      } else if a < i {
        assert t[b] == s[b - 1];
      } else if a == i {
        assert t[b] == s[b - 1];
      } else {
        assert t[a] == s[a - 1] && t[b] == s[b - 1];
      }
    }
  }

  /** What a scan has established once the keys outside `remaining` are read. */
  ghost predicate ScanInvariant<K, R>(rows: map<K, R>, key: R -> K, matches: R -> bool,
                                      before: (R, R) -> bool, remaining: set<K>, s: seq<R>) {
    && remaining <= rows.Keys
    && Stored(rows, key, s) && DistinctKeys(s, key) && Sorted(s, before)
    && (forall i :: 0 <= i < |s| ==> matches(s[i]) && key(s[i]) !in remaining)
    && (forall k :: k in rows && k !in remaining && matches(rows[k]) ==> rows[k] in s)
  }

  /** Reading a key that does not match keeps the scan's invariant. */
  lemma ScanSkip<K, R>(rows: map<K, R>, key: R -> K, matches: R -> bool, before: (R, R) -> bool,
                       remaining: set<K>, s: seq<R>, k: K)
    requires ScanInvariant(rows, key, matches, before, remaining, s)
    requires k in remaining && !matches(rows[k])
    ensures ScanInvariant(rows, key, matches, before, remaining - {k}, s)
  {
  }

  /** Reading a matching key and inserting its row at an insertion point keeps the invariant. */
  lemma ScanInsert<K, R(!new)>(rows: map<K, R>, key: R -> K, matches: R -> bool, before: (R, R) -> bool,
                               remaining: set<K>, s: seq<R>, k: K, i: nat)
    requires Keyed(rows, key)
    requires ScanInvariant(rows, key, matches, before, remaining, s)
    requires k in remaining && matches(rows[k]) && i <= |s|
    requires forall j :: 0 <= j < i ==> before(s[j], rows[k])
    requires forall j :: i <= j < |s| ==> before(rows[k], s[j])
    ensures ScanInvariant(rows, key, matches, before, remaining - {k}, Inserted(s, i, rows[k]))
  {
    var x := rows[k];
    InsertKeepsOrder(s, x, i, key, before);
    var t := Inserted(s, i, x);
    assert forall y :: y in s ==> y in t by {
      forall y | y in s
        ensures y in t
      {
        var j :| 0 <= j < |s| && s[j] == y;
        if j < i { assert t[j] == y; } else { assert t[j + 1] == y; }
      }
    }
    forall j | 0 <= j < |t|
      ensures key(t[j]) in rows && rows[key(t[j])] == t[j]
      ensures matches(t[j]) && key(t[j]) !in remaining - {k}
    {
      if j < i { assert t[j] == s[j]; } else if j > i { assert t[j] == s[j - 1]; }
    }
  }

  /** A full scan of the table: the database engine's evaluation of a query. */
  method Select<K(==), R(==,!new)>(rows: map<K, R>, key: R -> K, matches: R -> bool, before: (R, R) -> bool)
    returns (s: seq<R>)
    requires Keyed(rows, key)
    requires TotalPreorder(before)
    ensures IsSelection(rows, key, matches, before, s)
  {
    var remaining := rows.Keys;
    s := [];
    while remaining != {}
      invariant ScanInvariant(rows, key, matches, before, remaining, s)
      decreases remaining
    {
      var k :| k in remaining;
      if matches(rows[k]) {
        var i := InsertionPoint(s, rows[k], before);
        ScanInsert(rows, key, matches, before, remaining, s, k, i);
        s := Inserted(s, i, rows[k]);
      } else {
        ScanSkip(rows, key, matches, before, remaining, s, k);
      }
      remaining := remaining - {k};
    }
  }

  /** The same scan followed by `LIMIT limit`. */
  method SelectLimited<K(==), R(==,!new)>(rows: map<K, R>, key: R -> K, matches: R -> bool,
                                       before: (R, R) -> bool, limit: int)
    returns (s: seq<R>)
    requires Keyed(rows, key)
    requires TotalPreorder(before)
    ensures IsLimitedSelection(rows, key, matches, before, limit, s)
  {
    var all := Select(rows, key, matches, before);
    if limit < 0 || |all| <= limit {
      s := all;
    } else {
      s := all[..limit];
      forall k | k in rows && matches(rows[k]) && rows[k] !in s
        ensures forall i :: 0 <= i < |s| ==> before(s[i], rows[k])
      {
        var j :| 0 <= j < |all| && all[j] == rows[k];
        assert j >= limit;
      }
    }
  }

  /** A query on a column that is not a key, read through `T?`: some matching row, or null
      when none matches; which of several matching rows comes back is not specified. */
  method FindAny<K(==), R(==)>(rows: map<K, R>, matches: R -> bool) returns (r: Option<R>)
    ensures r.None? <==> forall k :: k in rows ==> !matches(rows[k])
    ensures r.Some? ==> r.value in rows.Values && matches(r.value)
  {
    if k :| k in rows && matches(rows[k]) {
      r := Some(rows[k]);
    } else {
      r := None;
    }
  }
}
