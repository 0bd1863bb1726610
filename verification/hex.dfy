/** Hex-grid geometry in axial coordinates and the "q,r" tile identifiers
    (getHexDistance in gameEngine.ts and gameData.ts; the id format of types.ts). */
module Hex {
  import opened Types

  function Abs(x: int): nat {
    if x < 0 then -x else x
  }

  /** Half the sum of the coordinate differences. The sum is always even for axial
      coordinates, so the source's floating-point halving never leaves a fraction. */
  function Distance(a: Hex, b: Hex): (d: nat)
    ensures 2 * d == Abs(a.q - b.q) + Abs(a.r - b.r) + Abs(a.s - b.s)
  {
    (Abs(a.q - b.q) + Abs(a.r - b.r) + Abs(a.s - b.s)) / 2
  }

  lemma DistanceToSelf(a: Hex)
    ensures Distance(a, a) == 0
  {
  }

  lemma DistanceSymmetric(a: Hex, b: Hex)
    ensures Distance(a, b) == Distance(b, a)
  {
  }

  lemma DistanceZeroOnlyOnSelf(a: Hex, b: Hex)
    ensures Distance(a, b) == 0 <==> a == b
  {
  }

  /** The six axial directions, as (dq, dr). */
  const Directions: seq<(int, int)> := [(1, 0), (1, -1), (0, -1), (-1, 0), (-1, 1), (0, 1)]

  function Neighbour(a: Hex, k: nat): (b: Hex)
    requires k < 6
    ensures b.q == a.q + Directions[k].0 && b.r == a.r + Directions[k].1
  {
    HexAt(a.q + Directions[k].0, a.r + Directions[k].1)
  }

  /** Distance 1 means exactly: one of the six axial neighbours. */
  lemma UnitDistanceIsNeighbour(a: Hex, b: Hex)
    ensures Distance(a, b) == 1 <==> exists k :: 0 <= k < 6 && b == Neighbour(a, k)
  {
    if Distance(a, b) == 1 {
      var dq, dr := b.q - a.q, b.r - a.r;
      var k := if (dq, dr) == (1, 0) then 0
               else if (dq, dr) == (1, -1) then 1
               else if (dq, dr) == (0, -1) then 2
               else if (dq, dr) == (-1, 0) then 3
               else if (dq, dr) == (-1, 1) then 4
               else 5;
      assert b == Neighbour(a, k);
    }
  }

  // --- Tile identifiers -------------------------------------------------------

  function Digit(d: int): (c: char)
    requires 0 <= d < 10
    ensures '0' <= c <= '9'
  {
    (48 + d) as char
  }

  /** Decimal rendering of a natural number, as JavaScript's template literals print it. */
  function NatToString(n: nat): (s: string)
    ensures |s| >= 1
    ensures |s| == 1 <==> n < 10
    ensures forall i :: 0 <= i < |s| ==> '0' <= s[i] <= '9'
    decreases n
  {
    if n < 10 then [Digit(n)] else NatToString(n / 10) + [Digit(n % 10)]
  }

  function IntToString(i: int): (s: string)
    ensures |s| >= 1
    ensures s[0] == '-' <==> i < 0
    ensures forall k :: 0 <= k < |s| ==> s[k] != ','
  {
    if i < 0 then "-" + NatToString(-i) else NatToString(i)
  }

  /** The tile identifier `${q},${r}`. */
  function TileId(q: int, r: int): string {
    IntToString(q) + "," + IntToString(r)
  }

  lemma {:induction false} NatToStringInjective(a: nat, b: nat)
    requires NatToString(a) == NatToString(b)
    ensures a == b
    decreases a
  {
    if a >= 10 && b >= 10 {
      var sa, sb := NatToString(a), NatToString(b);
      var pa, pb := NatToString(a / 10), NatToString(b / 10);
      assert sa == pa + [Digit(a % 10)] && sb == pb + [Digit(b % 10)];
      assert sa[|sa| - 1] == Digit(a % 10) && sb[|sb| - 1] == Digit(b % 10);
      assert pa == sa[..|sa| - 1] == sb[..|sb| - 1] == pb;
      NatToStringInjective(a / 10, b / 10);
    }
  }

  lemma IntToStringInjective(a: int, b: int)
    requires IntToString(a) == IntToString(b)
    ensures a == b
  {
    var sa, sb := IntToString(a), IntToString(b);
    if a < 0 && b < 0 {
      assert NatToString(-a) == sa[1..] == sb[1..] == NatToString(-b);
      NatToStringInjective(-a, -b);
    } else if a >= 0 && b >= 0 {
      NatToStringInjective(a, b);
    }
  }

  /** Splitting at the first comma recovers both halves when the left halves hold no comma. */
  lemma SplitAtComma(a1: string, b1: string, a2: string, b2: string)
    requires forall k :: 0 <= k < |a1| ==> a1[k] != ','
    requires forall k :: 0 <= k < |a2| ==> a2[k] != ','
    requires a1 + "," + b1 == a2 + "," + b2
    ensures a1 == a2 && b1 == b2
  {
    CommaAfter(a1, b1);
    CommaAfter(a2, b2);
    var s := a1 + "," + b1;
    assert a1 == s[..|a1|] == a2;
    assert b1 == s[|a1| + 1..] == b2;
  }

  lemma CommaAfter(a: string, b: string)
    requires forall k :: 0 <= k < |a| ==> a[k] != ','
    ensures forall k :: 0 <= k < |a| ==> (a + "," + b)[k] != ','
    ensures (a + "," + b)[|a|] == ','
  {
  }

  /** Distinct coordinates never share a tile id. */
  lemma TileIdInjective(q1: int, r1: int, q2: int, r2: int)
    requires TileId(q1, r1) == TileId(q2, r2)
    ensures q1 == q2 && r1 == r2
  {
    SplitAtComma(IntToString(q1), IntToString(r1), IntToString(q2), IntToString(r2));
    IntToStringInjective(q1, q2);
    IntToStringInjective(r1, r2);
  }

  /** The id a well-formed tile carries. */
  predicate IdMatchesCoords(t: MapTile) {
    t.id == TileId(t.coords.q, t.coords.r)
  }
}
