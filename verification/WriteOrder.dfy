/** Giving an append-only table a write_order: existing rows numbered by primary key, the
    identity restarted past them, and every later insert numbered by the database. */
module WriteOrder {
  import opened Relational

  // owner says which merchant each row belongs to. order is empty before the column exists.
  // next is what the identity will hand out; a refused insert consumes a value too.
  datatype Table = Table(owner: map<Id, Id>, order: map<Id, int>, next: int)

  /* ---- row_number() OVER (ORDER BY id) ---- */

  function UpTo(ids: set<Id>, i: Id): (below: set<Id>)
    ensures forall j :: j in below <==> j in ids && j <= i
  {
    set j | j in ids && j <= i
  }

  function Position(ids: set<Id>, i: Id): nat { |UpTo(ids, i)| }

  lemma SmallerSet(a: set<Id>, b: set<Id>)
    requires a <= b
    ensures |a| <= |b| && (a != b ==> |a| < |b|)
  {
    assert b == a + (b - a) && |b| == |a| + |b - a|;
  }

  // Numbering by position is an order isomorphism onto 1 to n.
  lemma PositionsFollowIds(ids: set<Id>, i: Id, j: Id)
    requires i in ids && j in ids
    ensures Position(ids, i) < Position(ids, j) <==> i < j
    ensures 1 <= Position(ids, i) <= |ids|
  {
    SmallerSet(UpTo(ids, i), ids);
    SmallerSet({i}, UpTo(ids, i));
    if i <= j {
      SmallerSet(UpTo(ids, i), UpTo(ids, j));
      assert i < j ==> j !in UpTo(ids, i);
    } else {
      SmallerSet(UpTo(ids, j), UpTo(ids, i));
    }
  }

  // Every number from 1 to n is used.
  lemma {:induction false} PositionsAreContiguous(ids: set<Id>, x: int)
    requires 1 <= x <= |ids|
    ensures exists i :: i in ids && Position(ids, i) == x
    decreases |ids|
  {
    var top := Greatest(ids);
    if x == |ids| {
      assert UpTo(ids, top) == ids;
    } else {
      PositionsAreContiguous(ids - {top}, x);
      var i :| i in ids - {top} && Position(ids - {top}, i) == x;
      assert UpTo(ids - {top}, i) == UpTo(ids, i);
    }
  }

  lemma {:induction false} Greatest(ids: set<Id>) returns (top: Id)
    requires ids != {}
    ensures top in ids && forall j :: j in ids ==> j <= top
    decreases |ids|
  {
    top :| top in ids;
    var above := ids - UpTo(ids, top);
    assert forall j :: j in ids ==> j in above || j in UpTo(ids, top);
    if above != {} {
      SmallerSet(above, ids);
      var next := Greatest(above);
      top := next;
    }
  }

  predicate Lowest(ids: set<Id>, i: Id) { i in ids && forall j :: j in ids ==> i <= j }

  lemma {:induction false} Least(ids: set<Id>) returns (low: Id)
    requires ids != {}
    ensures Lowest(ids, low)
    decreases |ids|
  {
    low :| low in ids;
    var below := UpTo(ids, low) - {low};
    assert forall j :: j in ids ==> j in below || low <= j;
    if below != {} {
      SmallerSet(below, ids);
      var next := Least(below);
      low := next;
    }
  }

  /* ---- upgrade ---- */

  function Upgraded(owner: map<Id, Id>): Table {
    Table(owner, map i | i in owner :: Position(owner.Keys, i), |owner| + 1)
  }

  class AppendOnlyTable {
    var owner: map<Id, Id>
    var order: map<Id, int>
    var next: int
    var guarded: bool

    function Contents(): Table
      reads this
    {
      Table(owner, order, next)
    }

    constructor (owner: map<Id, Id>)
      ensures this.owner == owner && order == map[] && guarded
    {
      this.owner := owner;
      order, next, guarded := map[], 1, true;
    }

    // Numbers the rows in primary key order. The trigger refuses any UPDATE, so it must be off.
    method Backfill()
      requires !guarded && order == map[]
      modifies this`order
      ensures order == Upgraded(owner).order
    {
      var rest := owner.Keys;
      var numbered: map<Id, int> := map[];
      while rest != {}
        invariant Backfilled(owner, rest, numbered)
        decreases |rest|
      {
        ghost var low := Least(rest);
        var i :| Lowest(rest, i);
        BackfillNext(owner, rest, numbered, i);
        numbered := numbered[i := |numbered| + 1];
        rest := rest - {i};
      }
      BackfillDone(owner, numbered);
      order := numbered;
    }

    method Upgrade()
      requires order == map[] && guarded
      modifies this
      ensures owner == old(owner) && guarded
      ensures Contents() == Upgraded(owner)
    {
      guarded := false;
      Backfill();
      guarded := true;
      if order == map[] {
        assert order.Keys == owner.Keys && |owner| == |owner.Keys|;
        next := 1;
      } else {
        LastIsHighest(owner);
        var last :| Last(order, last);
        next := order[last] + 1;
      }
    }

    // order is GENERATED ALWAYS: the writer does not choose it. lands is false when some other
    // constraint refuses the row, which rolls back the row but not the sequence.
    method Insert(i: Id, merchant: Id, lands: bool) returns (done: bool)
      modifies this
      ensures Contents() == Inserted(old(Contents()), Write(i, merchant, lands))
      ensures done <==> lands && i !in old(owner)
      ensures guarded == old(guarded)
    {
      done := lands && i !in owner;
      if done {
        owner := owner[i := merchant];
        order := order[i := next];
      }
      next := next + 1;
    }
  }

  // The rows already numbered are the lowest ones, and carry the numbers they should.
  ghost predicate NumberedSoFar(ids: set<Id>, rest: set<Id>, order: map<Id, int>, number: Id -> int) {
    && rest <= ids && order.Keys == ids - rest
    && (forall i, j :: i in order && j in rest ==> i < j)
    && (forall i :: i in order ==> order[i] == number(i))
  }

  function PositionIn(ids: set<Id>): Id -> int { (i: Id) => Position(ids, i) }

  lemma NextPosition(ids: set<Id>, done: set<Id>, rest: set<Id>, i: Id)
    requires done + rest == ids && i in rest && i !in done
    requires forall j :: j in rest ==> i <= j
    requires forall j :: j in done ==> j < i
    ensures Position(ids, i) == |done| + 1
  {
    assert UpTo(ids, i) == done + {i};
  }

  lemma NumberNext(ids: set<Id>, rest: set<Id>, order: map<Id, int>, number: Id -> int, i: Id)
    requires NumberedSoFar(ids, rest, order, number)
    requires Lowest(rest, i)
    requires number(i) == |order| + 1
    ensures NumberedSoFar(ids, rest - {i}, order[i := |order| + 1], number)
  {
  }

  ghost predicate Backfilled(owner: map<Id, Id>, rest: set<Id>, order: map<Id, int>) {
    NumberedSoFar(owner.Keys, rest, order, PositionIn(owner.Keys))
  }

  lemma BackfillNext(owner: map<Id, Id>, rest: set<Id>, order: map<Id, int>, i: Id)
    requires Backfilled(owner, rest, order) && Lowest(rest, i)
    ensures Backfilled(owner, rest - {i}, order[i := |order| + 1])
  {
    NextPosition(owner.Keys, order.Keys, rest, i);
    assert |order| == |order.Keys|;
    NumberNext(owner.Keys, rest, order, PositionIn(owner.Keys), i);
  }

  lemma BackfillDone(owner: map<Id, Id>, order: map<Id, int>)
    requires Backfilled(owner, {}, order)
    ensures order == Upgraded(owner).order
  {
  }

  predicate Last(order: map<Id, int>, i: Id) { i in order && forall j :: j in order ==> order[j] <= order[i] }

  lemma LastIsHighest(owner: map<Id, Id>)
    requires owner != map[]
    ensures exists i :: Last(Upgraded(owner).order, i)
    ensures forall i :: Last(Upgraded(owner).order, i) ==> Upgraded(owner).order[i] == |owner|
  {
    var order := Upgraded(owner).order;
    assert |owner| == |owner.Keys|;
    var k :| k in owner;
    PositionsFollowIds(owner.Keys, k, k);
    PositionsAreContiguous(owner.Keys, |owner|);
    var last :| last in owner.Keys && Position(owner.Keys, last) == |owner|;
    forall i | i in order ensures order[i] <= order[last] {
      PositionsFollowIds(owner.Keys, i, last);
    }
    assert Last(order, last);
  }

  // Both tables, one after the other.
  method UpgradeAll(tables: seq<AppendOnlyTable>)
    requires forall a, b :: 0 <= a < b < |tables| ==> tables[a] != tables[b]
    requires forall t :: t in tables ==> t.order == map[] && t.guarded
    modifies set t | t in tables
    ensures forall t :: t in tables ==> t.owner == old(t.owner) && t.guarded && t.Contents() == Upgraded(t.owner)
  {
    for n := 0 to |tables|
      invariant forall a :: 0 <= a < |tables| ==> tables[a].owner == old(tables[a].owner) && tables[a].guarded
      invariant forall a :: 0 <= a < n ==> tables[a].Contents() == Upgraded(tables[a].owner)
      invariant forall a :: n <= a < |tables| ==> tables[a].order == map[]
    {
      tables[n].Upgrade();
    }
  }

  /* ---- which row is current ---- */

  ghost predicate NewestById(t: Table, merchant: Id, i: Id) {
    i in t.owner && t.owner[i] == merchant && forall j :: j in t.owner && t.owner[j] == merchant ==> j <= i
  }

  ghost predicate Current(t: Table, merchant: Id, i: Id) {
    && i in t.owner && t.owner[i] == merchant && i in t.order
    && forall j :: j in t.owner && t.owner[j] == merchant && j in t.order ==> t.order[j] <= t.order[i]
  }

  // No merchant's history changes meaning: any two rows stand in the order they stood in, and
  // the current row is the one that was.
  lemma UpgradeKeepsHistory(owner: map<Id, Id>, merchant: Id, i: Id, j: Id)
    requires i in owner && j in owner
    ensures Upgraded(owner).order[i] < Upgraded(owner).order[j] <==> i < j
    ensures Current(Upgraded(owner), merchant, i) <==> NewestById(Upgraded(owner), merchant, i)
  {
    PositionsFollowIds(owner.Keys, i, j);
    forall k | k in owner ensures Upgraded(owner).order[k] <= Upgraded(owner).order[i] <==> k <= i {
      PositionsFollowIds(owner.Keys, i, k);
    }
  }

  /* ---- inserts afterwards ---- */

  datatype Write = Write(id: Id, merchant: Id, lands: bool)

  function Inserted(t: Table, w: Write): Table {
    if w.lands && w.id !in t.owner then
      Table(t.owner[w.id := w.merchant], t.order[w.id := t.next], t.next + 1)
    else
      t.(next := t.next + 1)
  }

  function InsertedAll(t: Table, ws: seq<Write>): Table
    decreases |ws|
  {
    if ws == [] then t else InsertedAll(Inserted(t, ws[0]), ws[1..])
  }

  // Every row is numbered, no two alike, and the identity is past them all.
  ghost predicate Numbered(t: Table) {
    && 1 <= t.next && t.order.Keys == t.owner.Keys
    && (forall i, j :: i in t.order && j in t.order && t.order[i] == t.order[j] ==> i == j)
    && (forall i :: i in t.order ==> 1 <= t.order[i] < t.next)
  }

  lemma UpgradedIsNumbered(owner: map<Id, Id>)
    ensures Numbered(Upgraded(owner))
  {
    var t := Upgraded(owner);
    hide Position;
    forall i, j | i in owner && j in owner
      ensures t.order[i] == t.order[j] ==> i == j
      ensures 1 <= t.order[i] < t.next
    {
      PositionsFollowIds(owner.Keys, i, j);
      PositionsFollowIds(owner.Keys, j, i);
    }
  }

  // No row of t is renumbered or changes owner, and whatever came later is numbered above them all.
  ghost predicate Extends(t: Table, end: Table) {
    && t.next <= end.next
    && (forall i :: i in t.order ==>
          i in end.order && end.order[i] == t.order[i]
          && i in t.owner && i in end.owner && end.owner[i] == t.owner[i])
    && (forall i :: i in end.order && i !in t.order ==> end.order[i] >= t.next)
  }

  lemma InsertExtends(t: Table, w: Write)
    requires Numbered(t)
    ensures Numbered(Inserted(t, w)) && Extends(t, Inserted(t, w))
  {
  }

  lemma ExtendsComposes(a: Table, b: Table, c: Table)
    requires Extends(a, b) && Extends(b, c)
    ensures Extends(a, c)
  {
  }

  // However many inserts follow, landing or not: the unique constraint never bites, no row is
  // renumbered, and whatever landed later is numbered above everything there before.
  lemma {:induction false} InsertsOnlyExtend(t: Table, ws: seq<Write>)
    requires Numbered(t)
    ensures Numbered(InsertedAll(t, ws)) && Extends(t, InsertedAll(t, ws))
    decreases |ws|
  {
    if ws != [] {
      hide Numbered, Extends, Inserted;
      InsertExtends(t, ws[0]);
      InsertsOnlyExtend(Inserted(t, ws[0]), ws[1..]);
      ExtendsComposes(t, Inserted(t, ws[0]), InsertedAll(t, ws));
    }
  }

  lemma {:induction false} InsertsCompose(t: Table, before: seq<Write>, after: seq<Write>)
    ensures InsertedAll(t, before + after) == InsertedAll(InsertedAll(t, before), after)
    decreases |before|
  {
    if before == [] {
      assert before + after == after;
    } else {
      assert (before + after)[1..] == before[1..] + after;
      InsertsCompose(Inserted(t, before[0]), before[1..], after);
    }
  }

  // A number is spent on every insert, landing or not, so a row's number says how many were tried
  // before it.
  lemma {:induction false} NumbersCountInserts(t: Table, ws: seq<Write>, w: Write)
    ensures InsertedAll(t, ws).next == t.next + |ws|
    ensures var end := InsertedAll(t, ws + [w]);
      w.lands && w.id !in InsertedAll(t, ws).owner ==> w.id in end.order && end.order[w.id] == t.next + |ws|
    decreases |ws|
  {
    InsertsCompose(t, ws, [w]);
    assert [w][1..] == [];
    assert InsertedAll(InsertedAll(t, ws), [w]) == Inserted(InsertedAll(t, ws), w);
    if ws != [] {
      NumbersCountInserts(Inserted(t, ws[0]), ws[1..], w);
    }
  }

  // The upgrade and everything after it: every row that was there keeps its place in primary
  // key order, and every row since is numbered above them all, no two alike.
  lemma HistoryIsKeptFromTheUpgradeOn(owner: map<Id, Id>, ws: seq<Write>)
    ensures var end := InsertedAll(Upgraded(owner), ws);
      && Numbered(end)
      && (forall i :: i in owner ==> i in end.order && end.order[i] == Position(owner.Keys, i))
      && (forall i :: i in end.order && i !in owner ==> end.order[i] > |owner|)
  {
    UpgradedIsNumbered(owner);
    hide Numbered, InsertedAll, Position;
    InsertsOnlyExtend(Upgraded(owner), ws);
  }

  predicate LandsFor(t: Table, w: Write, merchant: Id) { w.lands && w.id !in t.owner && w.merchant == merchant }

  // A write that lands is its merchant's current row, whatever its identifier, and no other
  // merchant's answer moves. A write that does not land moves nobody's.
  lemma CurrentFollowsTheDatabase(t: Table, w: Write, merchant: Id, i: Id)
    requires Numbered(t)
    ensures LandsFor(t, w, merchant) ==> (Current(Inserted(t, w), merchant, i) <==> i == w.id)
    ensures !LandsFor(t, w, merchant) ==> (Current(Inserted(t, w), merchant, i) <==> Current(t, merchant, i))
  {
    var next := Inserted(t, w);
    if LandsFor(t, w, merchant) {
      assert next.order[w.id] == t.next;
    } else if i in t.owner {
      assert forall j :: j in next.owner && next.owner[j] == merchant <==> j in t.owner && t.owner[j] == merchant;
    }
  }

  // Why the identity is restarted: left at 1, the first insert takes a number in use exactly
  // when the table had a row.
  lemma WithoutRestartTheFirstInsertCollides(owner: map<Id, Id>)
    ensures owner != map[] <==> exists i :: i in Upgraded(owner).order && Upgraded(owner).order[i] == 1
  {
    assert |owner| == |owner.Keys|;
    if owner != map[] {
      var k :| k in owner;
      PositionsFollowIds(owner.Keys, k, k);
      PositionsAreContiguous(owner.Keys, 1);
      var i :| i in owner.Keys && Position(owner.Keys, i) == 1;
      assert Upgraded(owner).order[i] == 1;
    }
  }
}
