/** The order row locks are taken in, and the check that one transaction obeyed it. */
module LockOrder {

  const MANDATE := "spending_mandate"
  const CHECKOUT := "checkout_session"
  const VARIANT := "variant"
  const RESERVATION := "inventory_reservation"
  const PAYMENT_ATTEMPT := "payment_attempt"
  const RAZORPAY_CHECKOUT := "razorpay_checkout"

  const LOCK_ORDER: seq<string> :=
    [MANDATE, CHECKOUT, VARIANT, RESERVATION, PAYMENT_ATTEMPT, RAZORPAY_CHECKOUT]

  // LOCK_ORDER.index(table)
  function Index(table: string): (i: nat)
    requires table in LOCK_ORDER
    ensures i < |LOCK_ORDER| && LOCK_ORDER[i] == table
  {
    if table == MANDATE then 0
    else if table == CHECKOUT then 1
    else if table == VARIANT then 2
    else if table == RESERVATION then 3
    else if table == PAYMENT_ATTEMPT then 4
    else 5
  }

  lemma IndexInverts(i: nat)
    requires i < |LOCK_ORDER|
    ensures LOCK_ORDER[i] in LOCK_ORDER && Index(LOCK_ORDER[i]) == i
  {
    assert CHECKOUT[0] != MANDATE[0];
    assert |VARIANT| == 7 && |RESERVATION| == 21 && |PAYMENT_ATTEMPT| == 15 && |RAZORPAY_CHECKOUT| == 17;
  }

  // Position i is where an ordered class is locked for the first time.
  ghost predicate FirstOfClass(tables: seq<string>, i: int) {
    0 <= i < |tables| && tables[i] in LOCK_ORDER && tables[i] !in tables[..i]
  }

  // What the check promises: classes are first locked in strictly increasing lock order.
  ghost predicate InLockOrder(tables: seq<string>) {
    forall i, j :: i < j && FirstOfClass(tables, i) && FirstOfClass(tables, j)
      ==> Index(tables[i]) < Index(tables[j])
  }

  // One more lock keeps the order exactly when it is ignored or above every class held.
  lemma InLockOrderExtends(tables: seq<string>, t: string)
    ensures InLockOrder(tables + [t]) <==>
      InLockOrder(tables) && (t in LOCK_ORDER && t !in tables
        ==> forall x :: x in tables && x in LOCK_ORDER ==> Index(x) < Index(t))
  {
    var more := tables + [t];
    assert forall i :: 0 <= i <= |tables| ==> more[..i] == tables[..i];
    assert forall i :: 0 <= i < |tables| ==> (FirstOfClass(more, i) <==> FirstOfClass(tables, i));
    assert FirstOfClass(more, |tables|) <==> t in LOCK_ORDER && t !in tables;
    forall x | x in tables && x in LOCK_ORDER
      ensures exists i :: FirstOfClass(tables, i) && tables[i] == x
    {
      FirstExists(tables, x);
    }
    if FirstOfClass(more, |tables|) && InLockOrder(more) {
      forall x | x in tables && x in LOCK_ORDER ensures Index(x) < Index(t) {
        var i :| FirstOfClass(tables, i) && tables[i] == x;
        assert FirstOfClass(more, i) && more[i] == x;
      }
    }
  }

  lemma FirstExists(tables: seq<string>, t: string)
    requires t in tables && t in LOCK_ORDER
    ensures exists i :: FirstOfClass(tables, i) && tables[i] == t
  {
    if t in tables[..|tables| - 1] {
      var earlier := tables[..|tables| - 1];
      FirstExists(earlier, t);
      var i :| FirstOfClass(earlier, i) && earlier[i] == t;
      assert earlier[..i] == tables[..i];
      assert FirstOfClass(tables, i) && tables[i] == t;
    } else {
      assert FirstOfClass(tables, |tables| - 1);
    }
  }

  // What the loop knows after a prefix it has not refused: the classes seen, and the highest.
  ghost predicate Scanned(prefix: seq<string>, seen: set<string>, position: int) {
    && InLockOrder(prefix)
    && (forall t :: t in seen <==> t in prefix && t in LOCK_ORDER)
    && (forall t :: t in seen ==> Index(t) <= position)
    && (position == -1 || exists t :: t in seen && Index(t) == position)
  }

  lemma ScanIgnores(prefix: seq<string>, seen: set<string>, position: int, table: string)
    requires Scanned(prefix, seen, position) && (table in seen || table !in LOCK_ORDER)
    ensures Scanned(prefix + [table], seen, position)
  {
    InLockOrderExtends(prefix, table);
  }

  lemma ScanTakes(prefix: seq<string>, seen: set<string>, position: int, table: string)
    requires Scanned(prefix, seen, position) && table !in seen && table in LOCK_ORDER
    ensures Index(table) <= position ==> !InLockOrder(prefix + [table])
    ensures Index(table) > position ==> Scanned(prefix + [table], seen + {table}, Index(table))
  {
    InLockOrderExtends(prefix, table);
  }

  method RespectsLockOrder(tables: seq<string>) returns (ok: bool)
    ensures ok <==> InLockOrder(tables)
  {
    var seen: set<string> := {};
    var position: int := -1;
    for n := 0 to |tables|
      invariant Scanned(tables[..n], seen, position)
    {
      var table := tables[n];
      assert tables[..n] + [table] == tables[..n + 1];
      if table in seen || table !in LOCK_ORDER {
        ScanIgnores(tables[..n], seen, position, table);
        continue;
      }
      ScanTakes(tables[..n], seen, position, table);
      seen := seen + {table};
      var index := Index(table);
      if index <= position {
        PrefixesStayInOrder(tables[..n + 1], tables[n + 1..]);
        assert tables == tables[..n + 1] + tables[n + 1..];
        return false;
      }
      position := index;
    }
    assert tables[..|tables|] == tables;
    return true;
  }

  // An obeyed order is obeyed at every moment before the end.
  lemma PrefixesStayInOrder(tables: seq<string>, rest: seq<string>)
    ensures InLockOrder(tables + rest) ==> InLockOrder(tables)
  {
    var all := tables + rest;
    assert forall i :: 0 <= i <= |tables| ==> all[..i] == tables[..i];
    assert forall i :: FirstOfClass(tables, i) ==> FirstOfClass(all, i) && all[i] == tables[i];
  }

  // Tables outside the order, and locks on a class already taken, change nothing wherever
  // they appear.
  lemma OtherLocksAreIgnored(before: seq<string>, table: string, after: seq<string>)
    requires table !in LOCK_ORDER || table in before
    ensures InLockOrder(before + [table] + after) <==> InLockOrder(before + after)
    decreases |after|
  {
    if after == [] {
      InLockOrderExtends(before, table);
      assert before + [table] + after == before + [table] && before + after == before;
    } else {
      var rest, last := after[..|after| - 1], after[|after| - 1];
      OtherLocksAreIgnored(before, table, rest);
      InLockOrderExtends(before + [table] + rest, last);
      InLockOrderExtends(before + rest, last);
      assert before + [table] + after == (before + [table] + rest) + [last];
      assert before + after == (before + rest) + [last];
    }
  }

  // The classes a transaction locked, each once, in the order it first needed them.
  function FirstAcquisitions(tables: seq<string>): (r: seq<string>)
    ensures forall t :: t in r <==> t in tables && t in LOCK_ORDER
  {
    if tables == [] then []
    else
      var earlier, t := tables[..|tables| - 1], tables[|tables| - 1];
      var r := FirstAcquisitions(earlier);
      assert tables == earlier + [t];
      if t in LOCK_ORDER && t !in earlier then r + [t] else r
  }

  ghost predicate PicksInOrder(picks: seq<nat>, chosen: seq<string>) {
    && |picks| == |chosen|
    && (forall k :: 0 <= k < |picks| ==> picks[k] < |LOCK_ORDER| && LOCK_ORDER[picks[k]] == chosen[k])
    && forall a, b :: 0 <= a < b < |picks| ==> picks[a] < picks[b]
  }

  // "A subsequence check rather than an equality check": the classes locked are a
  // subsequence of LOCK_ORDER, and any subsequence of it will do.
  lemma SubsequenceOfLockOrder(tables: seq<string>)
    ensures InLockOrder(tables) <==> exists picks :: PicksInOrder(picks, FirstAcquisitions(tables))
  {
    var chosen := FirstAcquisitions(tables);
    IncreasingFirsts(tables);
    if InLockOrder(tables) {
      var picks: seq<nat> := seq(|chosen|, k requires 0 <= k < |chosen| => Index(chosen[k]));
      assert PicksInOrder(picks, chosen);
    }
    if picks :| PicksInOrder(picks, chosen) {
      forall k | 0 <= k < |chosen| ensures Index(chosen[k]) == picks[k] {
        IndexInverts(picks[k]);
      }
    }
  }

  lemma {:induction false} IncreasingFirsts(tables: seq<string>)
    ensures InLockOrder(tables) <==> Increasing(FirstAcquisitions(tables))
    decreases |tables|
  {
    if tables != [] {
      var earlier, t := tables[..|tables| - 1], tables[|tables| - 1];
      assert tables == earlier + [t];
      IncreasingFirsts(earlier);
      InLockOrderExtends(earlier, t);
      if t in LOCK_ORDER && t !in earlier {
        IncreasingExtends(FirstAcquisitions(earlier), t);
      }
    }
  }

  ghost predicate Increasing(chosen: seq<string>)
    requires forall t :: t in chosen ==> t in LOCK_ORDER
  {
    forall a, b :: 0 <= a < b < |chosen| ==> Index(chosen[a]) < Index(chosen[b])
  }

  lemma IncreasingExtends(chosen: seq<string>, t: string)
    requires t in LOCK_ORDER && forall x :: x in chosen ==> x in LOCK_ORDER
    ensures Increasing(chosen + [t]) <==> Increasing(chosen) && forall x :: x in chosen ==> Index(x) < Index(t)
  {
    var more := chosen + [t];
    assert forall a :: 0 <= a < |chosen| ==> more[a] == chosen[a];
    if Increasing(more) {
      forall x | x in chosen ensures Index(x) < Index(t) {
        var a :| 0 <= a < |chosen| && chosen[a] == x;
        assert more[a] == x && more[|chosen|] == t;
      }
    }
  }

  /* ---- the order itself ---- */

  const THE_SIX: set<string> :=
    {"spending_mandate", "checkout_session", "variant", "inventory_reservation", "payment_attempt", "razorpay_checkout"}

  lemma {:induction false} ClimbsFromItsPlace(chosen: seq<string>, a: nat)
    requires (forall t :: t in chosen ==> t in LOCK_ORDER) && Increasing(chosen) && a < |chosen|
    ensures a <= Index(chosen[a]) && |chosen| - a <= 6 - Index(chosen[a])
    decreases |chosen| - a
  {
    if a + 1 < |chosen| {
      ClimbsFromItsPlace(chosen, a + 1);
    }
    StartsNoLower(chosen, a);
  }

  lemma {:induction false} StartsNoLower(chosen: seq<string>, a: nat)
    requires (forall t :: t in chosen ==> t in LOCK_ORDER) && Increasing(chosen) && a < |chosen|
    ensures a <= Index(chosen[a])
    decreases a
  {
    if a > 0 {
      StartsNoLower(chosen, a - 1);
    }
  }

  // Class k comes at position k or later, since the k classes below it are locked before it.
  lemma {:induction false} PlaceOf(chosen: seq<string>, k: nat) returns (a: nat)
    requires (forall t :: t in chosen ==> t in LOCK_ORDER) && Increasing(chosen)
    requires k < |LOCK_ORDER| && forall t :: t in LOCK_ORDER ==> t in chosen
    ensures k <= a < |chosen| && chosen[a] == LOCK_ORDER[k]
    decreases k
  {
    assert LOCK_ORDER[k] in chosen;
    a :| 0 <= a < |chosen| && chosen[a] == LOCK_ORDER[k];
    IndexInverts(k);
    if k > 0 {
      var below := PlaceOf(chosen, k - 1);
      IndexInverts(k - 1);
      assert below < a;
    }
  }

  lemma TheOrderAscends()
    ensures Increasing(LOCK_ORDER)
  {
    forall a, b | 0 <= a < b < |LOCK_ORDER| ensures Index(LOCK_ORDER[a]) < Index(LOCK_ORDER[b]) {
      IndexInverts(a);
      IndexInverts(b);
    }
  }

  lemma AllSixAscending(chosen: seq<string>)
    requires (forall t :: t in chosen ==> t in LOCK_ORDER) && forall t :: t in LOCK_ORDER ==> t in chosen
    requires Increasing(chosen)
    ensures chosen == LOCK_ORDER
  {
    var last := PlaceOf(chosen, 5);
    ClimbsFromItsPlace(chosen, 0);
    hide Increasing;
    forall a | 0 <= a < |chosen| ensures Index(chosen[a]) == a {
      ClimbsFromItsPlace(chosen, a);
    }
  }

  // A transaction that needs a row of every class can first lock them in one order only: the
  // mandate, the checkout, variants, the reservation, the attempt, and the provider's checkout.
  lemma TheOnlyOrderOfAllSix(tables: seq<string>)
    requires forall t :: t in THE_SIX ==> t in tables
    ensures InLockOrder(tables) <==>
      FirstAcquisitions(tables) ==
        ["spending_mandate", "checkout_session", "variant",
         "inventory_reservation", "payment_attempt", "razorpay_checkout"]
  {
    IncreasingFirsts(tables);
    forall t | t in LOCK_ORDER ensures t in FirstAcquisitions(tables) {
      assert t in THE_SIX;
    }
    TheOrderAscends();
    if Increasing(FirstAcquisitions(tables)) {
      AllSixAscending(FirstAcquisitions(tables));
    }
  }
}
