/**
 * A table is a sequence of rows keyed by an id. Lookup, update and delete act on
 * the FIRST row carrying the id, as `find_one`, `update_one` and `delete_one` do
 * (and as a Supabase `.eq("id", …).single()` does on a primary key); an insert
 * appends. No uniqueness of ids is assumed by these operations.
 *
 * A `find_one` whose filter names the id and one more field matches the first row that
 * passes the whole filter (FindWhere). The routes' own models write such a lookup as Get
 * followed by a test of the field; the two agree when ids are unique (FindWhereUnique),
 * as the server's uuid4 ids are, and differ when an id repeats (FindWhereSeesPastFirstRow).
 */
module Tables {
  import opened Records

  datatype Row<T> = Row(id: Id, val: T)

  predicate Has<T>(rows: seq<Row<T>>, id: Id)
  {
    exists i :: 0 <= i < |rows| && rows[i].id == id
  }

  /** Position of the first row with this id. */
  function IndexOf<T>(rows: seq<Row<T>>, id: Id): (r: Option<nat>)
    ensures r.Some? ==> r.value < |rows| && rows[r.value].id == id
    ensures r.Some? ==> forall j :: 0 <= j < r.value ==> rows[j].id != id
    ensures r.None? <==> !Has(rows, id)
    decreases |rows|
  {
    if |rows| == 0 then None
    else if rows[0].id == id then Some(0)
    else match IndexOf(rows[1..], id) {
      case None => None
      case Some(k) =>
        assert forall j :: 1 <= j < k + 1 ==> rows[j] == rows[1..][j - 1];
        Some(k + 1)
    }
  }

  /** The value of the first row with this id (`find_one({"id": id})`). */
  function Get<T>(rows: seq<Row<T>>, id: Id): (r: Option<T>)
    ensures r.Some? <==> Has(rows, id)
    ensures r.Some? ==> Row(id, r.value) in rows
  {
    match IndexOf(rows, id) {
      case None => None
      case Some(k) => Some(rows[k].val)
    }
  }

  /** Replaces the first row with this id; nothing changes when there is none
      (`update_one({"id": id}, {"$set": …})`). */
  function Put<T>(rows: seq<Row<T>>, id: Id, v: T): (r: seq<Row<T>>)
    ensures |r| == |rows|
    ensures forall i :: 0 <= i < |r| ==> r[i].id == rows[i].id
    ensures forall i :: 0 <= i < |r| ==> r[i] == rows[i] || r[i] == Row(id, v)
    ensures Get(r, id) == if Has(rows, id) then Some(v) else None
    ensures !Has(rows, id) ==> r == rows
  {
    match IndexOf(rows, id) {
      case None => rows
      case Some(k) => rows[k := Row(id, v)]
    }
  }

  /** Deletes the first row with this id (`delete_one`). */
  function Remove<T>(rows: seq<Row<T>>, id: Id): (r: seq<Row<T>>)
    ensures Has(rows, id) ==> |r| == |rows| - 1
    ensures !Has(rows, id) ==> r == rows
    ensures forall x :: x in r ==> x in rows
  {
    match IndexOf(rows, id) {
      case None => rows
      case Some(k) => rows[..k] + rows[k + 1..]
    }
  }

  /** Updating one id leaves every other id's row as it was. */
  lemma PutOther<T>(rows: seq<Row<T>>, id: Id, v: T, other: Id)
    requires other != id
    ensures Get(Put(rows, id, v), other) == Get(rows, other)
  {
    var r := Put(rows, id, v);
    match IndexOf(rows, other) {
      case None =>
        assert !Has(r, other) by {
          assert forall i :: 0 <= i < |r| ==> r[i].id == rows[i].id;
        }
      case Some(k) =>
        assert r[k] == rows[k];
        FirstIs(r, other, k);
    }
  }

  /** A second update of the same id overrides the first. */
  lemma PutTwice<T>(rows: seq<Row<T>>, id: Id, a: T, b: T)
    ensures Put(Put(rows, id, a), id, b) == Put(rows, id, b)
  {
    match IndexOf(rows, id) {
      case None =>
      case Some(k) =>
        var r := rows[k := Row(id, a)];
        FirstIs(r, id, k);
        assert r[k := Row(id, b)] == rows[k := Row(id, b)];
    }
  }

  /** The first row with the id is the one IndexOf names. */
  lemma FirstIs<T>(rows: seq<Row<T>>, id: Id, k: nat)
    requires k < |rows| && rows[k].id == id
    requires forall j :: 0 <= j < k ==> rows[j].id != id
    ensures IndexOf(rows, id) == Some(k)
  {
    var n := IndexOf(rows, id);
    assert n.Some?;
    assert !(n.value < k);
  }

  /** The same, for every other id at once. */
  lemma PutOthers<T>(rows: seq<Row<T>>, id: Id, v: T)
    ensures forall other :: other != id ==> Get(Put(rows, id, v), other) == Get(rows, other)
  {
    forall other | other != id ensures Get(Put(rows, id, v), other) == Get(rows, other) {
      PutOther(rows, id, v, other);
    }
  }

  /** Dropping a row with another id does not change what a lookup finds. */
  lemma SkipOther<T>(rows: seq<Row<T>>, k: nat, other: Id)
    requires k < |rows| && rows[k].id != other
    ensures Get(rows[..k] + rows[k + 1..], other) == Get(rows, other)
  {
    var r := rows[..k] + rows[k + 1..];
    assert |r| == |rows| - 1;
    assert forall i :: 0 <= i < k ==> r[i] == rows[i];
    assert forall i :: k <= i < |r| ==> r[i] == rows[i + 1];
    match IndexOf(rows, other) {
      case None =>
        forall i | 0 <= i < |r| ensures r[i].id != other {
          if i >= k { assert r[i] == rows[i + 1]; }
        }
        assert !Has(r, other);
      case Some(m) =>
        if m < k {
          assert r[m] == rows[m];
          FirstIs(r, other, m);
        } else {
          assert r[m - 1] == rows[m];
          forall j | 0 <= j < m - 1 ensures r[j].id != other {
            if k <= j { assert r[j] == rows[j + 1]; }
          }
          FirstIs(r, other, m - 1);
        }
    }
  }

  /** Deleting one id leaves every other id's row as it was. */
  lemma RemoveOther<T>(rows: seq<Row<T>>, id: Id, other: Id)
    requires other != id
    ensures Get(Remove(rows, id), other) == Get(rows, other)
  {
    match IndexOf(rows, id) {
      case None =>
      case Some(k) => SkipOther(rows, k, other);
    }
  }

  /** An insert makes the new row visible under its id unless an older row shadows it,
      and leaves every other id's row as it was. */
  lemma AppendGet<T>(rows: seq<Row<T>>, id: Id, v: T, other: Id)
    ensures Get(rows + [Row(id, v)], other) ==
      if Has(rows, other) then Get(rows, other)
      else if other == id then Some(v)
      else None
  {
    var r := rows + [Row(id, v)];
    assert forall i :: 0 <= i < |rows| ==> r[i] == rows[i];
    match IndexOf(rows, other) {
      case Some(k) =>
        var n := IndexOf(r, other);
        assert r[k] == rows[k];
        assert n == Some(k) by {
          assert n.Some?;
          assert !(n.value < k) by { assert r[n.value] == rows[n.value]; }
        }
      case None =>
        if other == id {
          var n := IndexOf(r, other);
          assert r[|rows|].id == other;
          assert n == Some(|rows|) by {
            assert n.Some?;
          }
        } else {
          assert !Has(r, other) by {
            forall i | 0 <= i < |r| ensures r[i].id != other {
              if i < |rows| { assert r[i] == rows[i]; }
            }
          }
        }
    }
  }

  /** `update_one(…, upsert=True)`: replaces the row with this id, or appends one. */
  function Upsert<T>(rows: seq<Row<T>>, id: Id, v: T): (r: seq<Row<T>>)
    ensures Get(r, id) == Some(v)
    ensures forall other :: other != id ==> Get(r, other) == Get(rows, other)
    ensures Has(rows, id) ==> |r| == |rows|
    ensures !Has(rows, id) ==> r == rows + [Row(id, v)]
  {
    if Has(rows, id) then
      PutOthers(rows, id, v);
      Put(rows, id, v)
    else
      AppendGet(rows, id, v, id);
      forall other | other != id ensures Get(rows + [Row(id, v)], other) == Get(rows, other) {
        AppendGet(rows, id, v, other);
      }
      rows + [Row(id, v)]
  }

  /** Every id names at most one row. */
  predicate UniqueIds<T>(rows: seq<Row<T>>)
  {
    forall i, j :: 0 <= i < |rows| && 0 <= j < |rows| && rows[i].id == rows[j].id ==> i == j
  }

  /** The first row with this id whose value passes `p`: a `find_one` on a compound
      filter such as `{'id': x, 'is_active': True}`. */
  function FindWhere<T>(rows: seq<Row<T>>, id: Id, p: T -> bool): (r: Option<T>)
    ensures r.Some? <==> exists i :: 0 <= i < |rows| && rows[i].id == id && p(rows[i].val)
    ensures r.Some? ==> Row(id, r.value) in rows && p(r.value)
    decreases |rows|
  {
    if |rows| == 0 then None
    else if rows[0].id == id && p(rows[0].val) then Some(rows[0].val)
    else
      assert forall i :: 1 <= i < |rows| ==> rows[i] == rows[1..][i - 1];
      FindWhere(rows[1..], id, p)
  }

  /** With unique ids, the compound lookup is the row with the id, kept when it passes `p`. */
  lemma FindWhereUnique<T>(rows: seq<Row<T>>, id: Id, p: T -> bool)
    requires UniqueIds(rows)
    ensures FindWhere(rows, id, p) == if Get(rows, id).Some? && p(Get(rows, id).value) then Get(rows, id) else None
  {
    var f := FindWhere(rows, id, p);
    match IndexOf(rows, id) {
      case None =>
      case Some(k) =>
        if f.Some? {
          var i :| 0 <= i < |rows| && rows[i] == Row(id, f.value);
          assert i == k;
        } else {
          assert !p(rows[k].val);
        }
    }
  }

  /** With a repeated id they differ: a first row that fails the filter hides, from Get,
      a later row with the same id that passes it. */
  lemma FindWhereSeesPastFirstRow<T>(id: Id, a: T, b: T, p: T -> bool)
    requires !p(a) && p(b)
    ensures Get([Row(id, a), Row(id, b)], id) == Some(a)
    ensures FindWhere([Row(id, a), Row(id, b)], id, p) == Some(b)
  {
    var rows := [Row(id, a), Row(id, b)];
    FirstIs(rows, id, 0);
    assert rows[1..] == [Row(id, b)];
  }
}
