/** World generation (generateHexMap and generateInitialState in gameData.ts): a hexagonal map
    of the given radius around the origin, ten nations with fixed capitals that annex the land
    around them in turn, and the diplomatic tables every nation starts with.
    The biome noise (sine, cosine and Math.random) is a parameter: any real per coordinate. */
module WorldGen {
  import opened Types
  import opened Hex
  import opened Catalogue
  import Engine
  import Invariants

  const MapRadius: int := 8
  const InitialYear: int := 2027

  // --- The map -------------------------------------------------------------------------

  /** Within `radius` steps of the origin. */
  predicate InDisk(q: int, r: int, radius: int) {
    Distance(HexAt(q, r), HexAt(0, 0)) <= radius
  }

  function Max(a: int, b: int): int {
    if a >= b then a else b
  }

  function Min(a: int, b: int): int {
    if a <= b then a else b
  }

  /** The disk is exactly what the generator's two loops enumerate: q from -radius to radius, and
      for each q, r from max(-radius, -q-radius) to min(radius, -q+radius). */
  lemma DiskRows(q: int, r: int, radius: int)
    ensures InDisk(q, r, radius) <==>
              -radius <= q <= radius && Max(-radius, -q - radius) <= r <= Min(radius, -q + radius)
  {
  }

  /** Generation order: row by row in q, and by r within a row. */
  predicate Before(a: HexCoordinate, b: HexCoordinate) {
    a.q < b.q || (a.q == b.q && a.r < b.r)
  }

  /** The biome the noise selects, before the centre is forced to plains. */
  function NoiseBiome(noise: real): Biome {
    if noise > 0.6 then Mountain
    else if noise > 0.3 then Forest
    else if noise < -0.6 then Desert
    else if noise < -0.3 then Ocean
    else Plains
  }

  /** The centre (|q| < 2 and |r| < 2) is always plains. */
  function TileBiome(q: int, r: int, noise: real): Biome {
    if Abs(q) < 2 && Abs(r) < 2 then Plains else NoiseBiome(noise)
  }

  /** A freshly generated, unowned tile. */
  function NewTile(q: int, r: int, noise: real): MapTile {
    var b := TileBiome(q, r, noise);
    MapTile(TileId(q, r), HexAt(q, r), b, None,
            TileBonus(if b == City then 50 else 5, if b == Plains then 10 else 0, if b == Desert then 20 else 0),
            BiomeOf(b).defense, BiomeOf(b).moveCost)
  }

  /** The generator's loop bounds: q from -radius to radius, and for each q, r from
      max(-radius, -q-radius) to min(radius, -q+radius). */
  predicate InRows(q: int, r: int, radius: int) {
    -radius <= q <= radius && Max(-radius, -q - radius) <= r <= Min(radius, -q + radius)
  }

  /** Tile `t` is the generator's tile for its coordinates, inside the loop bounds. */
  predicate Generated(t: MapTile, radius: int, noise: (int, int) -> real) {
    InRows(t.coords.q, t.coords.r, radius) && t == NewTile(t.coords.q, t.coords.r, noise(t.coords.q, t.coords.r))
  }

  /** The tiles (q, r0), (q, r0 + 1), ..., n of them. */
  function RowTiles(q: int, r0: int, n: nat, noise: (int, int) -> real): (row: seq<MapTile>)
    ensures |row| == n
  {
    seq(n, k requires 0 <= k < n => NewTile(q, r0 + k, noise(q, r0 + k)))
  }

  lemma RowTilesGrow(q: int, r0: int, n: nat, noise: (int, int) -> real)
    ensures RowTiles(q, r0, n + 1, noise) == RowTiles(q, r0, n, noise) + [NewTile(q, r0 + n, noise(q, r0 + n))]
  {
    var longer := RowTiles(q, r0, n + 1, noise);
    var grown := RowTiles(q, r0, n, noise) + [NewTile(q, r0 + n, noise(q, r0 + n))];
    forall k | 0 <= k < n + 1
      ensures longer[k] == grown[k]
    {
    }
  }

  /** The inner loop: one row of tiles, r ascending. */
  method GenerateRow(q: int, radius: int, noise: (int, int) -> real) returns (row: seq<MapTile>)
    requires -radius <= q <= radius
    ensures IsRow(row, q, radius, noise)
  {
    var r1 := Max(-radius, -q - radius);
    var r2 := Min(radius, -q + radius);
    row := [];
    var r := r1;
    while r <= r2
      invariant r1 <= r <= r2 + 1
      invariant row == RowTiles(q, r1, r - r1, noise)
    {
      RowTilesGrow(q, r1, r - r1, noise);
      row := row + [NewTile(q, r, noise(q, r))];
      r := r + 1;
    }
  }

  /** Where the coordinates (q, r) ended up, as far as the generator has got. */
  ghost predicate Covered(tiles: seq<MapTile>, at: map<(int, int), nat>, q: int, r: int) {
    (q, r) in at && at[(q, r)] < |tiles| && tiles[at[(q, r)]].coords == HexAt(q, r)
  }

  /** The row's exact content, as GenerateRow promises it. */
  predicate IsRow(row: seq<MapTile>, q: int, radius: int, noise: (int, int) -> real) {
    && -radius <= q <= radius
    && row == RowTiles(q, Max(-radius, -q - radius), Min(radius, -q + radius) - Max(-radius, -q - radius) + 1, noise)
  }

  /** The outer loop's invariant after the rows before q. */
  ghost predicate RowsDone(tiles: seq<MapTile>, at: map<(int, int), nat>, q: int, radius: int, noise: (int, int) -> real) {
    && (forall i :: 0 <= i < |tiles| ==> Generated(tiles[i], radius, noise) && tiles[i].coords.q < q)
    && (forall i, j :: 0 <= i < j < |tiles| ==> Before(tiles[i].coords, tiles[j].coords))
    && (forall q', r' :: InRows(q', r', radius) && q' < q ==> Covered(tiles, at, q', r'))
  }

  /** The k-th tile of row q is the tile at r = max(-radius, -q-radius) + k. */
  lemma RowAt(row: seq<MapTile>, q: int, radius: int, noise: (int, int) -> real, k: int)
    requires IsRow(row, q, radius, noise) && 0 <= k < |row|
    ensures var r := Max(-radius, -q - radius) + k;
            InRows(q, r, radius) && row[k] == NewTile(q, r, noise(q, r)) && row[k].coords == HexAt(q, r)
  {
  }

  /** Appending row q keeps the tiles generated and in order. */
  lemma AppendRowOrdered(tiles: seq<MapTile>, row: seq<MapTile>, q: int, radius: int, noise: (int, int) -> real)
    requires forall i :: 0 <= i < |tiles| ==> Generated(tiles[i], radius, noise) && tiles[i].coords.q < q
    requires forall i, j :: 0 <= i < j < |tiles| ==> Before(tiles[i].coords, tiles[j].coords)
    requires IsRow(row, q, radius, noise)
    ensures forall i :: 0 <= i < |tiles + row| ==> Generated((tiles + row)[i], radius, noise) && (tiles + row)[i].coords.q < q + 1
    ensures forall i, j :: 0 <= i < j < |tiles + row| ==> Before((tiles + row)[i].coords, (tiles + row)[j].coords)
  {
    var all := tiles + row;
    forall i | 0 <= i < |all|
      ensures Generated(all[i], radius, noise) && all[i].coords.q < q + 1
    {
      if i >= |tiles| {
        assert all[i] == row[i - |tiles|];
        RowAt(row, q, radius, noise, i - |tiles|);
      }
    }
    forall i, j | 0 <= i < j < |all|
      ensures Before(all[i].coords, all[j].coords)
    {
      if j >= |tiles| {
        assert all[j] == row[j - |tiles|];
        RowAt(row, q, radius, noise, j - |tiles|);
        if i >= |tiles| {
          assert all[i] == row[i - |tiles|];
          RowAt(row, q, radius, noise, i - |tiles|);
        }
      }
    }
  }

  /** The positions of row q in the grown sequence. */
  ghost function PlaceRow(at: map<(int, int), nat>, q: int, r1: int, n: nat, base: nat): map<(int, int), nat> {
    at + map r' | r1 <= r' < r1 + n :: (q, r') := base + (r' - r1)
  }

  /** Appending row q covers every coordinate of that row. */
  lemma AppendRowCovers(tiles: seq<MapTile>, at: map<(int, int), nat>, row: seq<MapTile>, q: int, radius: int, noise: (int, int) -> real)
    requires forall q', r' :: InRows(q', r', radius) && q' < q ==> Covered(tiles, at, q', r')
    requires IsRow(row, q, radius, noise)
    ensures var at' := PlaceRow(at, q, Max(-radius, -q - radius), |row|, |tiles|);
            forall q', r' :: InRows(q', r', radius) && q' < q + 1 ==> Covered(tiles + row, at', q', r')
  {
    var r1 := Max(-radius, -q - radius);
    var at' := PlaceRow(at, q, r1, |row|, |tiles|);
    var all := tiles + row;
    forall q', r' | InRows(q', r', radius) && q' < q + 1
      ensures Covered(all, at', q', r')
    {
      if q' == q {
        var k := r' - r1;
        RowAt(row, q, radius, noise, k);
        assert at'[(q', r')] == |tiles| + k;
        assert all[|tiles| + k] == row[k];
      } else {
        assert Covered(tiles, at, q', r');
        assert at'[(q', r')] == at[(q', r')];
      }
    }
  }

  /** Every coordinate of the disk carries a tile. */
  ghost predicate CoversDisk(tiles: seq<MapTile>, radius: int) {
    forall q, r :: InDisk(q, r, radius) ==> exists i :: 0 <= i < |tiles| && tiles[i].coords == HexAt(q, r)
  }

  /** Every tile lies in the disk. */
  predicate WithinDisk(tiles: seq<MapTile>, radius: int) {
    forall i :: 0 <= i < |tiles| ==> InDisk(tiles[i].coords.q, tiles[i].coords.r, radius)
  }

  predicate InGenerationOrder(tiles: seq<MapTile>) {
    forall i, j :: 0 <= i < j < |tiles| ==> Before(tiles[i].coords, tiles[j].coords)
  }

  /** Every tile is the one generated for its coordinates. */
  predicate AsGenerated(tiles: seq<MapTile>, noise: (int, int) -> real) {
    forall i :: 0 <= i < |tiles| ==>
      tiles[i] == NewTile(tiles[i].coords.q, tiles[i].coords.r, noise(tiles[i].coords.q, tiles[i].coords.r))
  }

  /** generateHexMap: every coordinate of the disk exactly once, in generation order. */
  method GenerateHexMap(radius: int, noise: (int, int) -> real) returns (tiles: seq<MapTile>)
    ensures WithinDisk(tiles, radius) && AsGenerated(tiles, noise)
    ensures InGenerationOrder(tiles)
    ensures CoversDisk(tiles, radius)
  {
    tiles := [];
    ghost var at: map<(int, int), nat> := map[];
    var q := -radius;
    while q <= radius
      invariant radius >= 0 ==> -radius <= q <= radius + 1
      invariant RowsDone(tiles, at, q, radius, noise)
    {
      var row := GenerateRow(q, radius, noise);
      AppendRowOrdered(tiles, row, q, radius, noise);
      AppendRowCovers(tiles, at, row, q, radius, noise);
      at := PlaceRow(at, q, Max(-radius, -q - radius), |row|, |tiles|);
      tiles := tiles + row;
      q := q + 1;
    }
    forall i | 0 <= i < |tiles|
      ensures InDisk(tiles[i].coords.q, tiles[i].coords.r, radius)
    {
      DiskRows(tiles[i].coords.q, tiles[i].coords.r, radius);
    }
    forall q', r' | InDisk(q', r', radius)
      ensures exists i :: 0 <= i < |tiles| && tiles[i].coords == HexAt(q', r')
    {
      DiskRows(q', r', radius);
      assert Covered(tiles, at, q', r');
    }
  }

  /** What generation guarantees about every tile: the centre is plains, snow and cities never
      appear, only plains feed, only desert yields oil, every tile pays 5 money (the 50 a city
      would pay is dead code, as no generated tile is a city), and defence and movement cost
      come from the biome table. */
  lemma NewTileShape(q: int, r: int, noise: real)
    ensures var t := NewTile(q, r, noise);
            && t.id == TileId(q, r) && t.coords == HexAt(q, r) && t.ownerId.None?
            && (Abs(q) < 2 && Abs(r) < 2 ==> t.biome == Plains)
            && t.biome != Snow && t.biome != City
            && t.resourceBonus.money == 5
            && (t.resourceBonus.food == 10 <==> t.biome == Plains) && (t.biome != Plains ==> t.resourceBonus.food == 0)
            && (t.resourceBonus.oil == 20 <==> t.biome == Desert) && (t.biome != Desert ==> t.resourceBonus.oil == 0)
            && t.defenseBonus == BiomeOf(t.biome).defense && t.movementCost == BiomeOf(t.biome).moveCost
  {
  }

  // --- Nations and their land ------------------------------------------------------------

  const NationCount: nat := 10

  /** The fixed capital of each nation, in axial (q, r). */
  const StartPositions: seq<(int, int)> :=
    [(0, 0), (5, -5), (-5, 5), (5, 0), (-5, 0), (0, 5), (0, -5), (3, 3), (-3, -3), (3, -3)]

  /** Each nation's population in thousands. */
  const Populations: seq<int> := [330000, 1400000, 144000, 83000, 67000, 65000, 126000, 1380000, 212000, 60000]

  function Capital(i: nat): Types.Hex
    requires i < NationCount
  {
    HexAt(StartPositions[i].0, StartPositions[i].1)
  }

  /** `c_${index}` */
  function CountryId(i: nat): string {
    "c_" + NatToString(i)
  }

  lemma CountryIdInjective(i: nat, j: nat)
    requires CountryId(i) == CountryId(j)
    ensures i == j
  {
    assert NatToString(i) == CountryId(i)[2..];
    assert NatToString(j) == CountryId(j)[2..];
    NatToStringInjective(i, j);
  }

  lemma CountryIdsDiffer(i: nat, j: nat)
    requires i != j
    ensures CountryId(i) != CountryId(j)
  {
    if CountryId(i) == CountryId(j) {
      CountryIdInjective(i, j);
    }
  }

  /** The ten capitals are distinct. */
  lemma CapitalsDistinct()
    ensures forall i, j :: 0 <= i < NationCount && 0 <= j < NationCount && Capital(i) == Capital(j) ==> i == j
  {
  }

  /** Every capital lies well inside the map: at most 6 steps from the origin. */
  lemma CapitalsInside()
    ensures forall i :: 0 <= i < NationCount ==> InDisk(Capital(i).q, Capital(i).r, 6)
  {
  }

  /** The capital tile: the nation owns it, it becomes a city with defence 50 (its yield and
      movement cost stay those of the generated terrain). Absent tile ids are skipped. */
  function ClaimCapital(tiles: seq<MapTile>, i: nat): (t': seq<MapTile>)
    requires i < NationCount
    ensures |t'| == |tiles|
    ensures forall j :: 0 <= j < |tiles| ==> t'[j].id == tiles[j].id && t'[j].coords == tiles[j].coords
    ensures forall j :: 0 <= j < |tiles| && t'[j] != tiles[j] ==> tiles[j].id == TileId(Capital(i).q, Capital(i).r)
    ensures (forall j :: 0 <= j < |tiles| ==> tiles[j].id != TileId(Capital(i).q, Capital(i).r)) ==> t' == tiles
    ensures (exists j :: 0 <= j < |tiles| && tiles[j].id == TileId(Capital(i).q, Capital(i).r)) ==>
              exists j :: 0 <= j < |tiles| && t'[j].id == TileId(Capital(i).q, Capital(i).r)
                          && t'[j].ownerId == Some(CountryId(i)) && t'[j].biome == City && t'[j].defenseBonus == 50
  {
    match Engine.FindTile(tiles, TileId(Capital(i).q, Capital(i).r))
    case Some(j) => tiles[j := tiles[j].(ownerId := Some(CountryId(i)), biome := City, defenseBonus := 50)]
    case None => tiles
  }

  /** Every unowned tile within two steps of the capital goes to the nation. */
  function Annex(tiles: seq<MapTile>, i: nat): (t': seq<MapTile>)
    requires i < NationCount
    ensures |t'| == |tiles|
    ensures forall j :: 0 <= j < |tiles| ==> t'[j] == tiles[j].(ownerId := t'[j].ownerId)
    ensures forall j :: 0 <= j < |tiles| && Truthy(tiles[j].ownerId) ==> t'[j] == tiles[j]
    ensures forall j :: 0 <= j < |tiles| && Distance(tiles[j].coords, Capital(i)) > 2 ==> t'[j] == tiles[j]
    ensures forall j :: 0 <= j < |tiles| && Distance(tiles[j].coords, Capital(i)) <= 2 ==> Truthy(t'[j].ownerId)
  {
    CountryIdTruthy(i);
    seq(|tiles|, j requires 0 <= j < |tiles| =>
      if !Truthy(tiles[j].ownerId) && Distance(tiles[j].coords, Capital(i)) <= 2
      then tiles[j].(ownerId := Some(CountryId(i))) else tiles[j])
  }

  /** Nations 0 .. n-1 place their capitals and annex land, in index order. */
  function Settle(tiles: seq<MapTile>, n: nat): (t': seq<MapTile>)
    requires n <= NationCount
    ensures |t'| == |tiles|
  {
    if n == 0 then tiles else Annex(ClaimCapital(Settle(tiles, n - 1), n - 1), n - 1)
  }

  // The ownership rule, stated per coordinate.

  /** One of the first n nations has its capital at c. */
  predicate IsCapital(c: Types.Hex, n: nat)
    requires n <= NationCount
  {
    exists i :: 0 <= i < n && Capital(i) == c
  }

  /** The owner of c after n nations, nation by nation: a capital always goes to its nation; other
      land goes to the first nation in range that finds it unowned. */
  function RuleOwner(c: Types.Hex, n: nat): Option<string>
    requires n <= NationCount
  {
    if n == 0 then None
    else if Capital(n - 1) == c then Some(CountryId(n - 1))
    else if RuleOwner(c, n - 1).None? && Distance(c, Capital(n - 1)) <= 2 then Some(CountryId(n - 1))
    else RuleOwner(c, n - 1)
  }

  /** Nation i is the first of n within two steps of c, and no capital of the n lies at c. */
  predicate FirstInRange(c: Types.Hex, n: nat, i: nat)
    requires n <= NationCount
  {
    && i < n && Distance(c, Capital(i)) <= 2
    && (forall k :: 0 <= k < n ==> Capital(k) != c)
    && (forall k :: 0 <= k < i ==> Distance(c, Capital(k)) > 2)
  }

  /** Land within two steps of no capital stays unowned, and only that land. */
  lemma {:induction false} UnclaimedIffOutOfRange(c: Types.Hex, n: nat)
    requires n <= NationCount
    ensures RuleOwner(c, n).None? <==> forall i :: 0 <= i < n ==> Distance(c, Capital(i)) > 2
  {
    if n > 0 {
      UnclaimedIffOutOfRange(c, n - 1);
      if Capital(n - 1) == c {
        DistanceToSelf(c);
      }
    }
  }

  /** A capital belongs to its nation, even when an earlier nation annexed it first. */
  lemma {:induction false} CapitalOwnedByItsNation(c: Types.Hex, n: nat, i: nat)
    requires i < n <= NationCount && Capital(i) == c
    ensures RuleOwner(c, n) == Some(CountryId(i))
  {
    if i < n - 1 {
      CapitalOwnedByItsNation(c, n - 1, i);
      CapitalsDistinct();
    }
  }

  /** Any other land belongs to the lowest-indexed nation within two steps. */
  lemma {:induction false} LandOwnedByFirstInRange(c: Types.Hex, n: nat, i: nat)
    requires n <= NationCount && FirstInRange(c, n, i)
    ensures RuleOwner(c, n) == Some(CountryId(i))
  {
    var m := n - 1;
    assert Capital(m) != c;
    if i < m {
      assert FirstInRange(c, m, i);
      LandOwnedByFirstInRange(c, m, i);
    } else {
      UnclaimedIffOutOfRange(c, m);
    }
  }

  /** The tile `t` (as generated) after the first n nations have settled. */
  function SettledTile(t: MapTile, n: nat): MapTile
    requires n <= NationCount
  {
    if IsCapital(t.coords, n) then t.(ownerId := RuleOwner(t.coords, n), biome := City, defenseBonus := 50)
    else t.(ownerId := RuleOwner(t.coords, n))
  }

  /** A freshly generated map: unowned tiles that are not cities, ids that render their
      coordinates, each coordinate at most once, and every capital present. */
  predicate FreshMap(tiles: seq<MapTile>) {
    && (forall j :: 0 <= j < |tiles| ==> IdMatchesCoords(tiles[j]) && tiles[j].ownerId.None? && tiles[j].biome != City)
    && (forall j, k :: 0 <= j < k < |tiles| ==> tiles[j].coords != tiles[k].coords)
    && (forall i: nat :: i < NationCount ==> exists j :: 0 <= j < |tiles| && tiles[j].coords == Capital(i))
  }

  lemma CountryIdTruthy(i: nat)
    ensures Truthy(Some(CountryId(i)))
  {
  }

  /** Where nation n's capital sits in the settled map. */
  lemma CapitalFound(tiles: seq<MapTile>, settled: seq<MapTile>, n: nat) returns (j: nat)
    requires n < NationCount && FreshMap(tiles)
    requires |settled| == |tiles| && forall k :: 0 <= k < |tiles| ==> settled[k].id == tiles[k].id && settled[k].coords == tiles[k].coords
    ensures Engine.FindTile(settled, TileId(Capital(n).q, Capital(n).r)) == Some(j)
    ensures j < |tiles| && tiles[j].coords == Capital(n)
  {
    var id := TileId(Capital(n).q, Capital(n).r);
    var w :| 0 <= w < |tiles| && tiles[w].coords == Capital(n);
    assert settled[w].id == id;
    j := Engine.FindTile(settled, id).value;
    TileIdInjective(tiles[j].coords.q, tiles[j].coords.r, Capital(n).q, Capital(n).r);
  }

  /** One nation's turn, seen from one tile: claiming the capital at `cap` and annexing moves the
      tile from its state after m nations to its state after m + 1. */
  lemma ClaimAndAnnexAt(before: seq<MapTile>, m: nat, cap: nat, t: MapTile, j: nat)
    requires m < NationCount && cap < |before| && j < |before|
    requires before[j] == SettledTile(t, m) && t.ownerId.None?
    requires j == cap <==> t.coords == Capital(m)
    ensures Annex(before[cap := before[cap].(ownerId := Some(CountryId(m)), biome := City, defenseBonus := 50)], m)[j]
            == SettledTile(t, m + 1)
  {
    var c := t.coords;
    CountryIdTruthy(m);
    var claimed := before[cap := before[cap].(ownerId := Some(CountryId(m)), biome := City, defenseBonus := 50)];
    assert Annex(claimed, m)[j]
           == if !Truthy(claimed[j].ownerId) && Distance(claimed[j].coords, Capital(m)) <= 2
              then claimed[j].(ownerId := Some(CountryId(m))) else claimed[j];
    if j == cap {
      assert IsCapital(c, m + 1);
    } else {
      assert IsCapital(c, m + 1) == IsCapital(c, m);
      if RuleOwner(c, m).Some? {
        RuleOwnerIds(c, m);
      }
    }
  }

  lemma {:induction false} SettleMatchesRule(tiles: seq<MapTile>, n: nat)
    requires n <= NationCount && FreshMap(tiles)
    ensures forall j :: 0 <= j < |tiles| ==> Settle(tiles, n)[j] == SettledTile(tiles[j], n)
  {
    if n > 0 {
      var m := n - 1;
      SettleMatchesRule(tiles, m);
      var before := Settle(tiles, m);
      var cap := CapitalFound(tiles, before, m);
      assert ClaimCapital(before, m) == before[cap := before[cap].(ownerId := Some(CountryId(m)), biome := City, defenseBonus := 50)];
      forall j | 0 <= j < |tiles|
        ensures Settle(tiles, n)[j] == SettledTile(tiles[j], n)
      {
        assert j == cap <==> tiles[j].coords == Capital(m);
        ClaimAndAnnexAt(before, m, cap, tiles[j], j);
      }
    }
  }

  /** Every owner the rule assigns is one of the nations. */
  lemma {:induction false} RuleOwnerIds(c: Types.Hex, n: nat)
    requires n <= NationCount
    ensures RuleOwner(c, n).Some? ==> exists i :: 0 <= i < n && RuleOwner(c, n) == Some(CountryId(i))
  {
    if n > 0 {
      RuleOwnerIds(c, n - 1);
    }
  }

  /** The map generateHexMap(MapRadius) produces is fresh: every capital lies inside it. */
  lemma GeneratedMapIsFresh(tiles: seq<MapTile>, noise: (int, int) -> real)
    requires WithinDisk(tiles, MapRadius) && AsGenerated(tiles, noise)
    requires InGenerationOrder(tiles)
    requires CoversDisk(tiles, MapRadius)
    ensures FreshMap(tiles)
  {
    CapitalsInside();
    forall i: nat | i < NationCount
      ensures exists j :: 0 <= j < |tiles| && tiles[j].coords == Capital(i)
    {
      var c := Capital(i);
      assert InDisk(c.q, c.r, MapRadius);
      assert exists j :: 0 <= j < |tiles| && tiles[j].coords == HexAt(c.q, c.r);
      assert HexAt(c.q, c.r) == c;
    }
    forall j | 0 <= j < |tiles|
      ensures IdMatchesCoords(tiles[j]) && tiles[j].ownerId.None? && tiles[j].biome != City
    {
      var c := tiles[j].coords;
      NewTileShape(c.q, c.r, noise(c.q, c.r));
    }
    assert forall j, k :: 0 <= j < k < |tiles| ==> tiles[j].coords != tiles[k].coords;
    assert forall i: nat :: i < NationCount ==> exists j :: 0 <= j < |tiles| && tiles[j].coords == Capital(i);
  }

  // --- Countries and relations -------------------------------------------------------------

  /** The ids of the ten nations. */
  function NationIds(): set<string> {
    set i | 0 <= i < NationCount :: CountryId(i)
  }

  lemma CountryIdsDistinct()
    ensures forall i: nat, j: nat :: CountryId(i) == CountryId(j) ==> i == j
  {
    forall i: nat, j: nat | CountryId(i) == CountryId(j)
      ensures i == j
    {
      CountryIdInjective(i, j);
    }
  }

  /** Math.max(0.1, population / 1,000,000), with the population in thousands. */
  function EconomyScale(pop: int): real {
    var perMillion := pop as real / 1000000.0;
    if perMillion > 0.1 then perMillion else 0.1
  }

  function StartingResources(pop: int): Resources {
    var scale := EconomyScale(pop);
    Resources((10000.0 * scale).Floor as real, (5000.0 * scale).Floor as real, (1000.0 * scale).Floor as real,
              (2000.0 * scale).Floor as real, pop as real * 1000.0, 0.0)
  }

  function StartingBuilding(b: BuildingType): int {
    match b
    case Farm => 5
    case Factory => 2
    case OilWell => 1
    case PowerPlant => 1
    case Lab => 0
    case Barracks => 1
    case Bunker => 0
  }

  function StartingUnit(u: UnitId): int {
    match u
    case Soldier => 50
    case Tank => 10
    case Artillery => 5
    case _ => 0
  }

  function StartingBuildings(): BuildingTable {
    EveryBuildingListed();
    map b: BuildingType | b in AllBuildings :: StartingBuilding(b)
  }

  function StartingUnits(): UnitTable {
    EveryUnitListed();
    map u: UnitId | u in AllUnits :: StartingUnit(u)
  }

  /** Nation i, the player exactly when i is the chosen index; it watches every other nation at 10. */
  function NewCountry(i: nat, playerIndex: int, ids: set<string>): Country
    requires i < NationCount
  {
    Country(CountryId(i), i == playerIndex, StartingResources(Populations[i]), StartingBuildings(), StartingUnits(),
            [], [], [], None, 0.0, OpeningIntel(CountryId(i), ids))
  }

  /** A nation's starting intelligence: level 10 on every other nation. */
  function OpeningIntel(own: string, ids: set<string>): (intel: map<string, int>)
    ensures intel.Keys == ids - {own}
    ensures forall t :: t in intel ==> intel[t] == 10
  {
    map t | t in ids && t != own :: 10
  }

  function Nations(playerIndex: int): map<string, Country> {
    Keyed(NationList(playerIndex))
  }

  /** The nations in index order, before they are filed by id. */
  function NationList(playerIndex: int): seq<Country> {
    seq(NationCount, i requires 0 <= i < NationCount => NewCountry(i, playerIndex, NationIds()))
  }

  /** `countries[c.id] = c` for each record in turn. */
  function Keyed(cs: seq<Country>): map<string, Country> {
    if |cs| == 0 then map[] else Keyed(cs[..|cs| - 1])[cs[|cs| - 1].id := cs[|cs| - 1]]
  }

  /** With distinct ids, each record is filed under its id, and nothing else is filed. */
  lemma {:induction false} KeyedEntries(cs: seq<Country>)
    requires forall i, j :: 0 <= i < j < |cs| ==> cs[i].id != cs[j].id
    ensures forall k :: k in Keyed(cs) ==> exists i :: 0 <= i < |cs| && cs[i].id == k
    ensures forall i :: 0 <= i < |cs| ==> cs[i].id in Keyed(cs) && Keyed(cs)[cs[i].id] == cs[i]
  {
    if |cs| > 0 {
      var init := cs[..|cs| - 1];
      KeyedEntries(init);
      forall i | 0 <= i < |cs|
        ensures cs[i].id in Keyed(cs) && Keyed(cs)[cs[i].id] == cs[i]
      {
        if i < |cs| - 1 {
          assert init[i] == cs[i];
        }
      }
      forall k | k in Keyed(cs)
        ensures exists i :: 0 <= i < |cs| && cs[i].id == k
      {
        if k != cs[|cs| - 1].id {
          var i :| 0 <= i < |init| && init[i].id == k;
          assert cs[i].id == k;
        }
      }
    }
  }

  /** Every ordered pair of distinct nations starts neutral, at opinion 0, without a trade deal. */
  function InitialRelations(): map<string, map<string, Relation>> {
    map src | src in NationIds() ::
      map tgt | tgt in NationIds() && tgt != src :: Relation(tgt, Neutral, 0, None, Some(false))
  }

  /** The state generateInitialState returns around a settled map. */
  function InitialStateOf(playerIndex: int, tiles: seq<MapTile>): GameState {
    GameState(1, InitialYear, 1, "c_" + IntToString(playerIndex), Nations(playerIndex), tiles, map[], map[],
              InitialRelations(), [GameMessage("msg_0", 1, InfoMsg, false)], false, None, None, None, None, None)
  }

  /** Settlement changes who owns a tile and a capital's terrain, never where a tile is. */
  lemma {:induction false} SettleKeepsCoords(tiles: seq<MapTile>, n: nat)
    requires n <= NationCount
    ensures forall j :: 0 <= j < |tiles| ==> Settle(tiles, n)[j].coords == tiles[j].coords
  {
    if n > 0 {
      SettleKeepsCoords(tiles, n - 1);
      var before := Settle(tiles, n - 1);
      var claimed := ClaimCapital(before, n - 1);
      assert forall j :: 0 <= j < |tiles| ==> claimed[j].coords == before[j].coords;
    }
  }

  /** A map with the same coordinates, tile for tile, still covers the disk. */
  lemma SameCoordsCover(tiles: seq<MapTile>, settled: seq<MapTile>, radius: int)
    requires |settled| == |tiles| && forall j :: 0 <= j < |tiles| ==> settled[j].coords == tiles[j].coords
    requires CoversDisk(tiles, radius)
    ensures CoversDisk(settled, radius)
  {
    forall q, r | InDisk(q, r, radius)
      ensures exists j :: 0 <= j < |settled| && settled[j].coords == HexAt(q, r)
    {
      var j :| 0 <= j < |tiles| && tiles[j].coords == HexAt(q, r);
      assert settled[j].coords == HexAt(q, r);
    }
  }

  /** The settled map stays inside the disk, each coordinate once. */
  lemma SettledMapInside(tiles: seq<MapTile>, n: nat, radius: int)
    requires n <= NationCount
    requires WithinDisk(tiles, radius) && InGenerationOrder(tiles)
    ensures var settled := Settle(tiles, n);
            && WithinDisk(settled, radius)
            && (forall j, k :: 0 <= j < k < |settled| ==> settled[j].coords != settled[k].coords)
  {
    SettleKeepsCoords(tiles, n);
  }

  /** Each settled tile is the generated tile as the nations left it. */
  lemma SettledMapContent(tiles: seq<MapTile>, noise: (int, int) -> real, n: nat)
    requires n <= NationCount
    requires WithinDisk(tiles, MapRadius) && AsGenerated(tiles, noise)
    requires InGenerationOrder(tiles)
    requires CoversDisk(tiles, MapRadius)
    ensures var settled := Settle(tiles, n);
            forall j :: 0 <= j < |settled| ==>
              var c := settled[j].coords;
              settled[j] == SettledTile(NewTile(c.q, c.r, noise(c.q, c.r)), n)
  {
    GeneratedMapIsFresh(tiles, noise);
    SettleMatchesRule(tiles, n);
  }

  /** generateInitialState: the generated map settled by the ten nations, and the nations' books. */
  method GenerateInitialState(playerIndex: int, noise: (int, int) -> real) returns (s: GameState)
    ensures s == InitialStateOf(playerIndex, s.tiles)
    ensures CoversDisk(s.tiles, MapRadius) && WithinDisk(s.tiles, MapRadius)
    ensures forall j, k :: 0 <= j < k < |s.tiles| ==> s.tiles[j].coords != s.tiles[k].coords
    ensures forall j :: 0 <= j < |s.tiles| ==>
              var c := s.tiles[j].coords;
              s.tiles[j] == SettledTile(NewTile(c.q, c.r, noise(c.q, c.r)), NationCount)
    ensures Invariants.Consistent(s)
  {
    var tiles := GenerateHexMap(MapRadius, noise);
    SettleKeepsCoords(tiles, NationCount);
    SameCoordsCover(tiles, Settle(tiles, NationCount), MapRadius);
    SettledMapInside(tiles, NationCount, MapRadius);
    SettledMapContent(tiles, noise, NationCount);
    var settled := Settle(tiles, NationCount);
    s := InitialStateOf(playerIndex, settled);
    forall j | 0 <= j < |settled| && settled[j].ownerId.Some?
      ensures settled[j].ownerId.value in NationIds()
    {
      var c := settled[j].coords;
      SettledOwnersAreNations(NewTile(c.q, c.r, noise(c.q, c.r)), NationCount);
    }
    InitialStateConsistent(playerIndex, settled);
  }

  // --- What the initial state promises --------------------------------------------------------

  /** A settled tile in closed form: land within two steps of no capital is unowned; a capital is a
      city of defence 50 owned by its nation; other land belongs to the lowest-indexed nation in
      range and keeps its terrain; position, yield and movement cost never change. */
  lemma SettledTileOwner(t: MapTile, n: nat)
    requires n <= NationCount
    ensures var u := SettledTile(t, n);
            && (u.ownerId.None? <==> forall i :: 0 <= i < n ==> Distance(t.coords, Capital(i)) > 2)
            && (forall i :: 0 <= i < n && Capital(i) == t.coords ==>
                  u.ownerId == Some(CountryId(i)) && u.biome == City && u.defenseBonus == 50)
            && (forall i :: FirstInRange(t.coords, n, i) ==>
                  u.ownerId == Some(CountryId(i)) && u.biome == t.biome && u.defenseBonus == t.defenseBonus)
            && u.id == t.id && u.coords == t.coords && u.resourceBonus == t.resourceBonus && u.movementCost == t.movementCost
  {
    UnclaimedIffOutOfRange(t.coords, n);
    forall i | 0 <= i < n && Capital(i) == t.coords
      ensures RuleOwner(t.coords, n) == Some(CountryId(i))
    {
      CapitalOwnedByItsNation(t.coords, n, i);
    }
    forall i | FirstInRange(t.coords, n, i)
      ensures RuleOwner(t.coords, n) == Some(CountryId(i)) && !IsCapital(t.coords, n)
    {
      LandOwnedByFirstInRange(t.coords, n, i);
    }
  }

  /** `c_${playerIndex}` names a nation exactly when the index is one of the ten. */
  lemma PlayerIdIsNation(playerIndex: int)
    ensures "c_" + IntToString(playerIndex) in NationIds() <==> 0 <= playerIndex < NationCount
    ensures 0 <= playerIndex ==> "c_" + IntToString(playerIndex) == CountryId(playerIndex)
  {
    var id := "c_" + IntToString(playerIndex);
    if playerIndex >= 0 {
      assert id == CountryId(playerIndex);
      if id in NationIds() {
        var i :| 0 <= i < NationCount && CountryId(i) == id;
        CountryIdInjective(i, playerIndex);
      }
    } else {
      forall i | 0 <= i < NationCount
        ensures CountryId(i) != id
      {
        assert id[2] == '-';
        assert CountryId(i)[2] == NatToString(i)[0];
      }
    }
  }

  lemma NationListIds(playerIndex: int)
    ensures var cs := NationList(playerIndex);
            && (forall i :: 0 <= i < |cs| ==> cs[i] == NewCountry(i, playerIndex, NationIds()) && cs[i].id == CountryId(i))
            && (forall i, j :: 0 <= i < j < |cs| ==> cs[i].id != cs[j].id)
  {
    var cs := NationList(playerIndex);
    forall i, j | 0 <= i < j < |cs|
      ensures cs[i].id != cs[j].id
    {
      CountryIdsDiffer(i, j);
    }
  }

  /** Nation i is filed under its own id. */
  lemma NationAt(playerIndex: int, i: nat)
    requires i < NationCount
    ensures CountryId(i) in Nations(playerIndex) && Nations(playerIndex)[CountryId(i)] == NewCountry(i, playerIndex, NationIds())
  {
    NationListIds(playerIndex);
    KeyedEntries(NationList(playerIndex));
  }

  /** Every entry of the nation table is one of the ten. */
  lemma NationEntry(playerIndex: int, k: string) returns (i: nat)
    requires k in Nations(playerIndex)
    ensures i < NationCount && k == CountryId(i) && Nations(playerIndex)[k] == NewCountry(i, playerIndex, NationIds())
  {
    var cs := NationList(playerIndex);
    NationListIds(playerIndex);
    KeyedEntries(cs);
    i :| 0 <= i < |cs| && cs[i].id == k;
  }

  /** The ten nations: filed under their own ids, no armies, generals or research yet, each
      watching every other nation (and only those) at intelligence 10. */
  lemma NationsAtStart(playerIndex: int)
    ensures var cs := Nations(playerIndex);
            && cs.Keys == NationIds()
            && forall k :: k in cs ==> FreshNation(cs[k], k)
  {
    var cs := Nations(playerIndex);
    NationKeys(playerIndex);
    forall k | k in cs
      ensures FreshNation(cs[k], k)
    {
      var i := NationEntry(playerIndex, k);
      NewCountryFresh(i, playerIndex);
    }
  }

  /** A nation as it enters the game: filed under its id, no armies, generals or research,
      and an intelligence level of 10 on every other nation. */
  ghost predicate FreshNation(c: Country, k: string) {
    && c.id == k && c.armies == [] && c.generals == []
    && c.researchedTechs == [] && c.currentResearch.None? && c.researchProgress == 0.0
    && c.intelligence.Keys == NationIds() - {k}
    && forall t :: t in c.intelligence ==> c.intelligence[t] == 10
  }

  lemma NewCountryFresh(i: nat, playerIndex: int)
    requires i < NationCount
    ensures FreshNation(NewCountry(i, playerIndex, NationIds()), CountryId(i))
  {
    var c := NewCountry(i, playerIndex, NationIds());
    assert c.intelligence == OpeningIntel(CountryId(i), NationIds());
  }

  lemma NationKeys(playerIndex: int)
    ensures Nations(playerIndex).Keys == NationIds()
  {
    var cs := Nations(playerIndex);
    forall k | k in cs
      ensures k in NationIds()
    {
      var i := NationEntry(playerIndex, k);
    }
    forall k | k in NationIds()
      ensures k in cs
    {
      var i :| 0 <= i < NationCount && CountryId(i) == k;
      NationAt(playerIndex, i);
    }
  }

  /** Exactly one nation is the player's when the index is one of the ten, and it is the one
      `playerCountryId` names; with any other index no nation is. */
  lemma OnePlayer(playerIndex: int)
    ensures var cs := Nations(playerIndex);
            && (forall k1, k2 :: k1 in cs && k2 in cs && cs[k1].isPlayer && cs[k2].isPlayer ==> k1 == k2)
            && ("c_" + IntToString(playerIndex) in cs <==> 0 <= playerIndex < NationCount)
            && (0 <= playerIndex < NationCount ==> cs["c_" + IntToString(playerIndex)].isPlayer)
            && (!(0 <= playerIndex < NationCount) ==> forall k :: k in cs ==> !cs[k].isPlayer)
  {
    var cs := Nations(playerIndex);
    NationsAtStart(playerIndex);
    PlayerIdIsNation(playerIndex);
    forall k | k in cs
      ensures cs[k].isPlayer <==> 0 <= playerIndex && k == CountryId(playerIndex)
    {
      var i := NationEntry(playerIndex, k);
      if 0 <= playerIndex && k == CountryId(playerIndex) {
        CountryIdInjective(i, playerIndex);
      }
    }
  }

  /** A nation's opening stock: money, food, oil and energy scale with the population (in
      thousands) at 10000, 5000, 1000 and 2000 per million, rounded down, but never below a tenth
      of a million people's worth. */
  lemma OpeningResources(pop: int)
    ensures var res := StartingResources(pop);
            && res.money >= 1000.0 && res.food >= 500.0 && res.oil >= 100.0 && res.energy >= 200.0
            && (pop >= 100000 ==> res.money == (pop as real / 100.0).Floor as real)
            && (pop <= 100000 ==> res.money == 1000.0)
            && (pop >= 100000 ==> res.food == (pop as real / 200.0).Floor as real
                                  && res.oil == (pop as real / 1000.0).Floor as real
                                  && res.energy == (pop as real / 500.0).Floor as real)
            && (pop <= 100000 ==> res.food == 500.0 && res.oil == 100.0 && res.energy == 200.0)
            && res.population == pop as real * 1000.0 && res.researchPoints == 0.0
  {
    var scale := EconomyScale(pop);
    assert scale >= 0.1;
    assert 10000.0 * scale >= 1000.0 && 5000.0 * scale >= 500.0 && 1000.0 * scale >= 100.0 && 2000.0 * scale >= 200.0;
    if pop >= 100000 {
      assert 10000.0 * scale == pop as real / 100.0;
      assert 5000.0 * scale == pop as real / 200.0;
      assert 1000.0 * scale == pop as real / 1000.0;
      assert 2000.0 * scale == pop as real / 500.0;
    }
  }

  /** 65 units in reserve: 50 soldiers, 10 tanks and 5 artillery. */
  lemma OpeningReserve()
    ensures var units := StartingUnits();
            UnitTotal(units) == 65 && units[Soldier] == 50 && units[Tank] == 10 && units[Artillery] == 5
  {
    var units := StartingUnits();
    assert UnitTotal(units) == 65 by {
      assert AllUnits == [Soldier, Tank, Artillery, Jet, Bomber, Helicopter, Destroyer, Sub, Carrier, Nuke, Sam];
      assert units[Soldier] == 50 && units[Tank] == 10 && units[Artillery] == 5;
    }
  }

  /** Every ordered pair of distinct nations, and only those, starts Neutral at opinion 0 with no
      trade deal and no ceasefire; so the table is symmetric. */
  lemma RelationsAtStart()
    ensures var rel := InitialRelations();
            && rel.Keys == NationIds()
            && (forall a, b :: a in rel && b in NationIds() ==> (b in rel[a] <==> a != b))
            && (forall a, b :: a in rel && b in rel[a] ==>
                  rel[a][b] == Relation(b, Neutral, 0, None, Some(false)) && OpinionInRange(rel[a][b]))
            && (forall a, b :: a in rel && b in rel[a] ==> b in rel && a in rel[b] && rel[b][a].status == rel[a][b].status)
  {
  }

  /** The opening position satisfies the bookkeeping every command preserves. */
  lemma InitialStateConsistent(playerIndex: int, tiles: seq<MapTile>)
    requires forall j :: 0 <= j < |tiles| && tiles[j].ownerId.Some? ==> tiles[j].ownerId.value in NationIds()
    ensures Invariants.Consistent(InitialStateOf(playerIndex, tiles))
  {
    NationsAtStart(playerIndex);
    var s := InitialStateOf(playerIndex, tiles);
    assert Invariants.CountriesKeyed(s);
    assert Invariants.RostersSound(s);
    assert Invariants.GeneralRostersSound(s);
  }

  /** Every owner the settlement assigns is a nation. */
  lemma SettledOwnersAreNations(t: MapTile, n: nat)
    requires n <= NationCount
    ensures SettledTile(t, n).ownerId.Some? ==> SettledTile(t, n).ownerId.value in NationIds()
  {
    RuleOwnerIds(t.coords, n);
  }
}
