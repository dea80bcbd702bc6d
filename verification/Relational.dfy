/** Tables as finite maps from primary key to row, and the three kinds of constraint the
    schema is built from: unique indexes (composite, partial or nullable), composite foreign
    keys, and sums over the rows of a table. */
module Relational {

  datatype Option<+T> = None | Some(value: T)

  type Id = nat
  type Time = int

  // The ranges of the two integer column types.
  predicate Integer(x: int) { -0x8000_0000 <= x < 0x8000_0000 }
  predicate Bigint(x: int) { -0x8000_0000_0000_0000 <= x < 0x8000_0000_0000_0000 }

  // A statement on one row. The map key is the primary key, so an Update keeps it.
  datatype Change<+R> = Insert(id: Id, row: R) | Update(id: Id, row: R) | Delete(id: Id)

  // INSERT needs a fresh primary key; UPDATE and DELETE address a row that exists.
  predicate Addressed<R>(rows: map<Id, R>, c: Change<R>) {
    if c.Insert? then c.id !in rows else c.id in rows
  }

  function Written<R>(rows: map<Id, R>, c: Change<R>): map<Id, R> {
    match c
    case Insert(id, row) => rows[id := row]
    case Update(id, row) => rows[id := row]
    case Delete(id) => rows - {id}
  }

  /* ---- unique indexes ---- */

  // key returns None for a row outside a partial index's predicate, or with a NULL in it:
  // such rows never collide.
  ghost predicate Unique<R, K(!new)>(rows: map<Id, R>, key: R -> Option<K>) {
    forall i, j :: i in rows && j in rows && key(rows[i]).Some? && key(rows[i]) == key(rows[j]) ==> i == j
  }

  // What an index probe for one new row looks for.
  predicate Free<R, K(==)>(rows: map<Id, R>, key: R -> Option<K>, id: Id, row: R) {
    key(row).Some? ==> forall j :: j in rows && j != id ==> key(rows[j]) != key(row)
  }

  lemma ProbeIsEnough<R, K(!new)>(rows: map<Id, R>, key: R -> Option<K>, id: Id, row: R)
    requires Unique(rows, key)
    ensures Unique(rows[id := row], key) <==> Free(rows, key, id, row)
  {
    var post := rows[id := row];
    if Unique(post, key) && key(row).Some? {
      forall j | j in rows && j != id ensures key(rows[j]) != key(row) {
        assert post[j] == rows[j] && post[id] == row;
      }
    }
  }

  lemma UniqueAfterDelete<R, K(!new)>(rows: map<Id, R>, key: R -> Option<K>, gone: set<Id>)
    requires Unique(rows, key)
    ensures Unique(rows - gone, key)
  {
  }

  /* ---- foreign keys ---- */

  // link is the referencing identifier, None when NULL (MATCH SIMPLE: nothing to check);
  // agrees compares the remaining columns of a composite key.
  predicate Resolves<R, T>(row: R, targets: map<Id, T>, link: R -> Option<Id>, agrees: (R, T) -> bool) {
    link(row).Some? ==> link(row).value in targets && agrees(row, targets[link(row).value])
  }

  ghost predicate References<R, T>(
      rows: map<Id, R>, targets: map<Id, T>, link: R -> Option<Id>, agrees: (R, T) -> bool)
  {
    forall i :: i in rows ==> Resolves(rows[i], targets, link, agrees)
  }

  predicate Unreferenced<R>(rows: map<Id, R>, link: R -> Option<Id>, id: Id) {
    forall i :: i in rows ==> link(rows[i]) != Some(id)
  }

  lemma WrittenSource<R, T>(
      rows: map<Id, R>, targets: map<Id, T>, link: R -> Option<Id>, agrees: (R, T) -> bool, id: Id, row: R)
    requires References(rows, targets, link, agrees)
    ensures References(rows[id := row], targets, link, agrees) <==> Resolves(row, targets, link, agrees)
  {
    assert rows[id := row][id] == row;
  }

  lemma WrittenTarget<R, T>(
      rows: map<Id, R>, targets: map<Id, T>, link: R -> Option<Id>, agrees: (R, T) -> bool, id: Id, row: T)
    requires References(rows, targets, link, agrees)
    requires id in targets ==> forall i :: i in rows && agrees(rows[i], targets[id]) ==> agrees(rows[i], row)
    ensures References(rows, targets[id := row], link, agrees)
  {
  }

  lemma DeletedTarget<R, T>(
      rows: map<Id, R>, targets: map<Id, T>, link: R -> Option<Id>, agrees: (R, T) -> bool, id: Id)
    requires References(rows, targets, link, agrees)
    ensures References(rows, targets - {id}, link, agrees) <==> Unreferenced(rows, link, id)
  {
    if References(rows, targets - {id}, link, agrees) {
      forall i | i in rows ensures link(rows[i]) != Some(id) {
        assert Resolves(rows[i], targets - {id}, link, agrees);
      }
    } else {
      var i :| i in rows && !Resolves(rows[i], targets - {id}, link, agrees);
      assert Resolves(rows[i], targets, link, agrees);
    }
  }

  /* ---- sums ---- */

  ghost function SumBy<R>(rows: map<Id, R>, weight: R -> int): int {
    if rows == map[] then 0
    else var k :| k in rows; weight(rows[k]) + SumBy(rows - {k}, weight)
  }

  // The sum does not depend on the order rows are visited in.
  lemma {:induction false} SumAt<R>(rows: map<Id, R>, weight: R -> int, id: Id)
    requires id in rows
    ensures SumBy(rows, weight) == weight(rows[id]) + SumBy(rows - {id}, weight)
    decreases |rows|
  {
    var k :| k in rows && SumBy(rows, weight) == weight(rows[k]) + SumBy(rows - {k}, weight);
    if k != id {
      SumAt(rows - {k}, weight, id);
      assert rows - {k} - {id} == rows - {id} - {k};
      SumAt(rows - {id}, weight, k);
    }
  }

  lemma SumWritten<R>(rows: map<Id, R>, weight: R -> int, id: Id, row: R)
    ensures SumBy(rows[id := row], weight)
         == SumBy(rows, weight) + weight(row) - if id in rows then weight(rows[id]) else 0
  {
    SumAt(rows[id := row], weight, id);
    assert rows[id := row] - {id} == rows - {id};
    if id in rows {
      SumAt(rows, weight, id);
    } else {
      assert rows - {id} == rows;
    }
  }

  lemma {:induction false} SumOrdered<R>(rows: map<Id, R>, low: R -> int, high: R -> int)
    requires forall i :: i in rows ==> low(rows[i]) <= high(rows[i])
    ensures SumBy(rows, low) <= SumBy(rows, high)
    decreases |rows|
  {
    if rows != map[] {
      var k :| k in rows;
      SumAt(rows, low, k);
      SumAt(rows, high, k);
      SumOrdered(rows - {k}, low, high);
    }
  }

  lemma {:induction false} SumSplit<R>(rows: map<Id, R>, whole: R -> int, a: R -> int, b: R -> int, c: R -> int)
    requires forall i :: i in rows ==> whole(rows[i]) == a(rows[i]) + b(rows[i]) + c(rows[i])
    ensures SumBy(rows, whole) == SumBy(rows, a) + SumBy(rows, b) + SumBy(rows, c)
    decreases |rows|
  {
    if rows != map[] {
      var k :| k in rows;
      SumAt(rows, whole, k);
      SumAt(rows, a, k);
      SumAt(rows, b, k);
      SumAt(rows, c, k);
      SumSplit(rows - {k}, whole, a, b, c);
    }
  }

  // A set of rows set aside, as a cascade sets them.
  function Kept<R>(rows: map<Id, R>, ids: set<Id>): map<Id, R> { map i | i in rows && i in ids :: rows[i] }

  lemma {:induction false} SumWithout<R>(rows: map<Id, R>, weight: R -> int, gone: set<Id>)
    ensures SumBy(rows - gone, weight) == SumBy(rows, weight) - SumBy(Kept(rows, gone), weight)
    decreases |rows|
  {
    if rows == map[] {
      assert rows - gone == map[] && Kept(rows, gone) == map[];
    } else {
      var k :| k in rows;
      var rest := rows - {k};
      SumAt(rows, weight, k);
      SumWithout(rest, weight, gone);
      if k in gone {
        assert rows - gone == rest - gone;
        assert Kept(rows, gone) - {k} == Kept(rest, gone);
        SumAt(Kept(rows, gone), weight, k);
      } else {
        assert (rows - gone) - {k} == rest - gone;
        assert Kept(rows, gone) == Kept(rest, gone);
        SumAt(rows - gone, weight, k);
      }
    }
  }

  lemma {:induction false} SumZero<R>(rows: map<Id, R>, weight: R -> int)
    requires forall i :: i in rows ==> weight(rows[i]) == 0
    ensures SumBy(rows, weight) == 0
    decreases |rows|
  {
    if rows != map[] {
      var k :| k in rows;
      SumAt(rows, weight, k);
      SumZero(rows - {k}, weight);
    }
  }
}
