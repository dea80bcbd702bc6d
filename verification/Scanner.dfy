/** The one-pass bracket scan over a request body, and what its verdict means on any bytes. */
module Scanner {

  newtype byte = x: int | 0 <= x < 256

  const QUOTE: byte := 0x22
  const BACKSLASH: byte := 0x5C

  predicate Opens(b: byte) { b == 0x5B || b == 0x7B }
  predicate Closes(b: byte) { b == 0x5D || b == 0x7D }

  // Where the scan is between two bytes: outside any string, inside one, or inside one just
  // after an unescaped backslash.
  datatype Place = Outside | InString | Escaped

  function Next(at: Place, b: byte): Place {
    match at
    case Escaped => InString
    case InString => if b == BACKSLASH then Escaped else if b == QUOTE then Outside else InString
    case Outside => if b == QUOTE then InString else Outside
  }

  function PlaceAfter(bytes: seq<byte>): Place {
    if bytes == [] then Outside else Next(PlaceAfter(bytes[..|bytes| - 1]), bytes[|bytes| - 1])
  }

  // What byte k contributes to the nesting: brackets inside a string are text.
  function Bracket(body: seq<byte>, k: nat): (d: int)
    requires k < |body|
    ensures -1 <= d <= 1
  {
    if PlaceAfter(body[..k]) != Outside then 0
    else if Opens(body[k]) then 1
    else if Closes(body[k]) then -1
    else 0
  }

  // Openings minus closings in the window from i up to j.
  function Net(body: seq<byte>, i: nat, j: nat): int
    requires i <= j <= |body|
    decreases j
  {
    if i == j then 0 else Net(body, i, j - 1) + Bracket(body, j - 1)
  }

  // No window ending in an opening opens more than m levels net. Nothing before the window
  // counts in its favour, so surplus closing brackets never buy headroom.
  ghost predicate ShallowUpTo(body: seq<byte>, n: nat, m: int)
    requires n <= |body|
  {
    forall i, j :: 0 <= i < j <= n && Bracket(body, j - 1) == 1 ==> Net(body, i, j) <= m
  }

  ghost predicate Shallow(body: seq<byte>, m: int) {
    ShallowUpTo(body, |body|, m)
  }

  // The floored counter is the deepest window ending here.
  ghost predicate Deepest(body: seq<byte>, n: nat, depth: int)
    requires n <= |body|
  {
    && (forall i :: 0 <= i <= n ==> Net(body, i, n) <= depth)
    && exists i :: 0 <= i <= n && Net(body, i, n) == depth
  }

  method WithinDepth(body: seq<byte>, maxDepth: int) returns (ok: bool)
    ensures ok <==> Shallow(body, maxDepth)
  {
    var depth: int := 0;
    var inString, escaped := false, false;
    assert Net(body, 0, 0) == 0;
    for n := 0 to |body|
      invariant PlaceAfter(body[..n]) == if !inString then Outside else if escaped then Escaped else InString
      invariant escaped ==> inString
      invariant Deepest(body, n, depth)
      invariant ShallowUpTo(body, n, maxDepth)
    {
      var b := body[n];
      assert body[..n + 1][..n] == body[..n];
      OneMoreByte(body, n + 1, depth);
      if inString {
        if escaped {
          escaped := false;
        } else if b == BACKSLASH {
          escaped := true;
        } else if b == QUOTE {
          inString := false;
        }
        continue;
      }
      if b == QUOTE {
        inString := true;
      } else if Opens(b) {
        depth := depth + 1;
        if depth > maxDepth {
          return false;
        }
      } else if Closes(b) {
        depth := if depth - 1 > 0 then depth - 1 else 0;
      }
    }
    return true;
  }

  lemma OneMoreByte(body: seq<byte>, j: nat, depth: int)
    requires 0 < j <= |body| && Deepest(body, j - 1, depth)
    ensures depth >= 0
    ensures var d := depth + Bracket(body, j - 1); Deepest(body, j, if d > 0 then d else 0)
    ensures exists i :: 0 <= i < j && Net(body, i, j) == depth + Bracket(body, j - 1)
  {
    assert Net(body, j - 1, j - 1) == 0;
    assert Net(body, j, j) == 0;
    var i :| 0 <= i <= j - 1 && Net(body, i, j - 1) == depth;
    assert Net(body, i, j) == depth + Bracket(body, j - 1);
    forall k | 0 <= k < j ensures Net(body, k, j) == Net(body, k, j - 1) + Bracket(body, j - 1) {
    }
  }

  ghost predicate EveryWindow(body: seq<byte>, m: int) {
    forall i, j :: 0 <= i <= j <= |body| ==> Net(body, i, j) <= m
  }

  // For a bound of zero or more, every window counts.
  lemma {:induction false} ShallowMeansEveryWindow(body: seq<byte>, m: int)
    requires m >= 0
    ensures Shallow(body, m) <==> EveryWindow(body, m)
  {
    if Shallow(body, m) {
      forall i, j | 0 <= i <= j <= |body| ensures Net(body, i, j) <= m {
        EndAtAnOpening(body, m, i, j);
      }
    } else {
      var i, j :| 0 <= i < j <= |body| && Bracket(body, j - 1) == 1 && Net(body, i, j) > m;
    }
  }

  lemma {:induction false} EndAtAnOpening(body: seq<byte>, m: int, i: nat, j: nat)
    requires m >= 0 && i <= j <= |body| && Shallow(body, m)
    ensures Net(body, i, j) <= m
    decreases j
  {
    if i < j && Bracket(body, j - 1) != 1 {
      EndAtAnOpening(body, m, i, j - 1);
    }
  }

  // A verdict of too deep is final: what follows cannot undo it.
  lemma {:induction false} TooDeepStaysTooDeep(body: seq<byte>, more: seq<byte>, m: int)
    requires !Shallow(body, m)
    ensures !Shallow(body + more, m)
  {
    var i, j :| 0 <= i < j <= |body| && Bracket(body, j - 1) == 1 && Net(body, i, j) > m;
    SameWindow(body, more, i, j);
    SameBracket(body, more, j - 1);
  }

  lemma SameBracket(body: seq<byte>, more: seq<byte>, k: nat)
    requires k < |body|
    ensures Bracket(body + more, k) == Bracket(body, k)
  {
    assert (body + more)[..k] == body[..k];
  }

  lemma {:induction false} SameWindow(body: seq<byte>, more: seq<byte>, i: nat, j: nat)
    requires i <= j <= |body|
    ensures Net(body + more, i, j) == Net(body, i, j)
    decreases j
  {
    if i < j {
      SameBracket(body, more, j - 1);
      SameWindow(body, more, i, j - 1);
    }
  }
}
