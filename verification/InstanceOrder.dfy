/** Sorting a listing: one sorted order of a set of ids, and insertion into a sorted listing. */
module InstanceOrder {
  import opened RuntimeTypes
  import opened InstanceTable

  lemma {:induction false} BeforeIsTransitive(a: string, b: string, c: string)
    requires Before(a, b) && Before(b, c)
    ensures Before(a, c)
  {
    if a != "" && a[0] == b[0] && b[0] == c[0] {
      BeforeIsTransitive(a[1..], b[1..], c[1..]);
    }
  }

  lemma {:induction false} FirstIsLeast(order: seq<InstanceId>, k: nat)
    requires Sorted(order) && 0 < k < |order|
    ensures Before(order[0], order[k])
  {
    if k > 1 {
      FirstIsLeast(order, k - 1);
      BeforeIsTransitive(order[0], order[k - 1], order[k]);
    }
  }

  /** Two sorted lists of the same distinct ids are the same list. */
  lemma {:induction false} SortedUnique(a: seq<InstanceId>, b: seq<InstanceId>)
    requires Sorted(a) && Distinct(a) && Sorted(b) && Distinct(b)
    requires forall id :: id in a <==> id in b
    ensures a == b
  {
    assert b != [] ==> b[0] in a;
    if a != [] {
      assert a[0] in a;
      assert b != [] && b[0] in b;
      if a[0] != b[0] {
        var j :| 0 <= j < |b| && b[j] == a[0];
        var k :| 0 <= k < |a| && a[k] == b[0];
        FirstIsLeast(b, j);
        FirstIsLeast(a, k);
        BeforeIsTotal(a[0], b[0]);
      }
      assert a[0] !in a[1..] && b[0] !in b[1..];
      forall id ensures id in a[1..] <==> id in b[1..] {
        assert id in a <==> id == a[0] || id in a[1..];
        assert id in b <==> id == b[0] || id in b[1..];
      }
      SortedUnique(a[1..], b[1..]);
    }
  }

  function InsertRow(rows: seq<Instance>, row: Instance): seq<Instance> {
    if rows == [] then [row]
    else if Before(row.id, rows[0].id) then [row] + rows
    else [rows[0]] + InsertRow(rows[1..], row)
  }

  /** A list of rows that belongs to a list of ids. */
  predicate Mirrors(out: seq<Instance>, ids: seq<InstanceId>, rows: map<InstanceId, Instance>) {
    |out| == |ids| && forall k | 0 <= k < |ids| :: ids[k] in rows && out[k] == rows[ids[k]]
  }

  /** Rows and their ids are inserted at the same place. */
  lemma {:induction false} InsertRowMirrors(
    out: seq<Instance>, ids: seq<InstanceId>, rows: map<InstanceId, Instance>, id: InstanceId)
    requires Mirrors(out, ids, rows) && id in rows && forall x | x in rows :: rows[x].id == x
    ensures Mirrors(InsertRow(out, rows[id]), Insert(ids, id), rows)
  {
    if out != [] {
      assert out[0].id == ids[0];
      if !Before(id, ids[0]) {
        InsertRowMirrors(out[1..], ids[1..], rows, id);
      }
    }
  }

  /** The rows collected so far, sorted by id, when the rows in `rest` are still to come. */
  ghost predicate Collected(out: seq<Instance>, ids: seq<InstanceId>, rows: map<InstanceId, Instance>,
                            rest: set<InstanceId>)
  {
    && Sorted(ids) && Distinct(ids) && Mirrors(out, ids, rows)
    && forall id :: id in ids <==> id in rows && id !in rest
  }

  lemma CollectOneMore(out: seq<Instance>, ids: seq<InstanceId>, rows: map<InstanceId, Instance>,
                       rest: set<InstanceId>, id: InstanceId)
    requires Collected(out, ids, rows, rest) && id in rest && id in rows && forall x | x in rows :: rows[x].id == x
    ensures Collected(InsertRow(out, rows[id]), Insert(ids, id), rows, rest - {id})
  {
    InsertKeepsSorted(ids, id);
    InsertRowMirrors(out, ids, rows, id);
  }

  lemma CollectedAll(t: Table, out: seq<Instance>, ids: seq<InstanceId>)
    requires Wellformed(t) && Collected(out, ids, t.rows, {})
    ensures out == Listing(t)
  {
    SortedUnique(ids, t.order);
  }
}
