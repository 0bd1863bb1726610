/** The bookkeeping every reducer step keeps: records are filed under their own ids, each nation's
    army roster lists exactly its armies, every roster general exists, and every owned tile belongs
    to an existing nation. The source never checks these; they hold because every command maintains
    them, provided the ids it takes from the clock are fresh. */
module Invariants {
  import opened Types
  import opened Catalogue
  import opened Combat
  import opened Engine

  predicate CountriesKeyed(s: GameState) {
    forall k :: k in s.countries ==> s.countries[k].id == k
  }

  predicate ArmiesKeyed(s: GameState) {
    forall k :: k in s.armies ==> s.armies[k].id == k && s.armies[k].ownerId in s.countries
  }

  predicate GeneralsKeyed(s: GameState) {
    forall k :: k in s.generals ==> s.generals[k].id == k
  }

  /** Every id on a nation's roster names an army of that nation. */
  predicate RostersSound(s: GameState) {
    forall k, i :: k in s.countries && 0 <= i < |s.countries[k].armies| ==>
      s.countries[k].armies[i] in s.armies && s.armies[s.countries[k].armies[i]].ownerId == k
  }

  /** Every army is on its nation's roster. */
  predicate RostersComplete(s: GameState) {
    forall id :: id in s.armies && s.armies[id].ownerId in s.countries ==> id in s.countries[s.armies[id].ownerId].armies
  }

  predicate GeneralRostersSound(s: GameState) {
    forall k, i :: k in s.countries && 0 <= i < |s.countries[k].generals| ==> s.countries[k].generals[i] in s.generals
  }

  predicate OwnersExist(s: GameState) {
    forall i :: 0 <= i < |s.tiles| && Truthy(s.tiles[i].ownerId) ==> s.tiles[i].ownerId.value in s.countries
  }

  predicate Consistent(s: GameState) {
    && CountriesKeyed(s) && ArmiesKeyed(s) && GeneralsKeyed(s)
    && RostersSound(s) && RostersComplete(s) && GeneralRostersSound(s)
    && OwnersExist(s)
  }

  /** The clock-based id of a new army does not collide with an existing one. */
  predicate FreshIds(s: GameState, a: GameAction, d: Draws) {
    a.CreateArmy? ==> d.freshId !in s.armies
  }

  // --- Steps that leave the bookkeeping alone ---------------------------------------------

  /** The same nations, armies, generals and owners, with only untracked fields changed. */
  predicate SameBooks(s: GameState, s': GameState) {
    && s'.countries.Keys == s.countries.Keys
    && (forall k :: k in s.countries ==>
          s'.countries[k].id == s.countries[k].id && s'.countries[k].armies == s.countries[k].armies
          && s'.countries[k].generals == s.countries[k].generals)
    && s'.armies.Keys == s.armies.Keys
    && (forall k :: k in s.armies ==> s'.armies[k].id == s.armies[k].id && s'.armies[k].ownerId == s.armies[k].ownerId)
    && s'.generals.Keys == s.generals.Keys
    && (forall k :: k in s.generals ==> s'.generals[k].id == s.generals[k].id)
    && |s'.tiles| == |s.tiles|
    && (forall i :: 0 <= i < |s.tiles| ==> s'.tiles[i].ownerId == s.tiles[i].ownerId)
  }

  lemma SameBooksKeepConsistency(s: GameState, s': GameState)
    requires Consistent(s) && SameBooks(s, s')
    ensures Consistent(s')
  {
    assert RostersSound(s') by {
      forall k, i | k in s'.countries && 0 <= i < |s'.countries[k].armies|
        ensures s'.countries[k].armies[i] in s'.armies && s'.armies[s'.countries[k].armies[i]].ownerId == k
      {
        assert s.countries[k].armies[i] in s.armies;
      }
    }
    assert RostersComplete(s') by {
      forall id | id in s'.armies && s'.armies[id].ownerId in s'.countries
        ensures id in s'.countries[s'.armies[id].ownerId].armies
      {
        assert id in s.countries[s.armies[id].ownerId].armies;
      }
    }
    assert GeneralRostersSound(s') by {
      forall k, i | k in s'.countries && 0 <= i < |s'.countries[k].generals|
        ensures s'.countries[k].generals[i] in s'.generals
      {
        assert s.countries[k].generals[i] in s.generals;
      }
    }
    assert OwnersExist(s') by {
      forall i | 0 <= i < |s'.tiles| && Truthy(s'.tiles[i].ownerId)
        ensures s'.tiles[i].ownerId.value in s'.countries
      {
        assert Truthy(s.tiles[i].ownerId);
      }
    }
  }

  // --- Removing an army -------------------------------------------------------------------

  /** Disbanding an army from its owner's roster keeps the books. */
  lemma DisbandKeepsConsistency(s: GameState, id: string)
    requires Consistent(s) && id in s.armies
    ensures s.armies[id].ownerId in s.countries
    ensures Consistent(Disband(s, id, s.armies[id].ownerId))
  {
    var owner := s.armies[id].ownerId;
    var s' := Disband(s, id, owner);
    assert RostersSound(s') by {
      forall k, i | k in s'.countries && 0 <= i < |s'.countries[k].armies|
        ensures s'.countries[k].armies[i] in s'.armies && s'.armies[s'.countries[k].armies[i]].ownerId == k
      {
        var x := s'.countries[k].armies[i];
        if k == owner {
          assert x in s'.countries[k].armies;
          assert x in s.countries[k].armies && x != id;
          var j :| 0 <= j < |s.countries[k].armies| && s.countries[k].armies[j] == x;
          assert s.armies[s.countries[k].armies[j]].ownerId == k;
        } else {
          assert x == s.countries[k].armies[i];
          assert s.armies[x].ownerId == k;
        }
      }
    }
    assert RostersComplete(s') by {
      forall x | x in s'.armies && s'.armies[x].ownerId in s'.countries
        ensures x in s'.countries[s'.armies[x].ownerId].armies
      {
        assert x in s.countries[s.armies[x].ownerId].armies;
      }
    }
    assert GeneralRostersSound(s') by {
      forall k, i | k in s'.countries && 0 <= i < |s'.countries[k].generals|
        ensures s'.countries[k].generals[i] in s'.generals
      {
        assert s.countries[k].generals[i] in s.generals;
      }
    }
  }

  /** Marking a listed general dead keeps the books. */
  lemma BuryKeepsConsistency(s: GameState, g: string)
    requires Consistent(s) && g in s.generals
    ensures Consistent(s.(generals := s.generals[g := s.generals[g].(status := Dead)]))
  {
    var s' := s.(generals := s.generals[g := s.generals[g].(status := Dead)]);
    assert GeneralRostersSound(s') by {
      forall k, i | k in s'.countries && 0 <= i < |s'.countries[k].generals|
        ensures s'.countries[k].generals[i] in s'.generals
      {
        assert s.countries[k].generals[i] in s.generals;
      }
    }
  }

  /** Replacing an army by one with the same id and owner keeps the books. */
  lemma ReviseArmyKeepsConsistency(s: GameState, id: string, army: Army)
    requires Consistent(s) && id in s.armies
    requires army.id == s.armies[id].id && army.ownerId == s.armies[id].ownerId
    ensures Consistent(s.(armies := s.armies[id := army]))
  {
    SameBooksKeepConsistency(s, s.(armies := s.armies[id := army]));
  }

  /** Replacing a nation's record by one with the same id and rosters keeps the books. */
  lemma ReviseCountryKeepsConsistency(s: GameState, k: string, c: Country)
    requires Consistent(s) && k in s.countries
    requires c.id == s.countries[k].id && c.armies == s.countries[k].armies && c.generals == s.countries[k].generals
    ensures Consistent(s.(countries := s.countries[k := c]))
  {
    SameBooksKeepConsistency(s, s.(countries := s.countries[k := c]));
  }

  /** Handing a tile to an existing nation keeps the books. */
  lemma ClaimKeepsConsistency(s: GameState, ti: nat, owner: string)
    requires Consistent(s) && ti < |s.tiles| && owner in s.countries
    ensures Consistent(s.(tiles := s.tiles[ti := s.tiles[ti].(ownerId := Some(owner))]))
  {
  }

  // --- Commands ---------------------------------------------------------------------------

  lemma AdvanceTurnKeepsConsistency(s: GameState, id: string)
    requires Consistent(s)
    ensures Consistent(AdvanceTurn(s, id))
  {
    var s' := AdvanceTurn(s, id);
    assert SameBooks(s, s') by {
      forall k | k in s.countries
        ensures s'.countries[k].id == s.countries[k].id && s'.countries[k].armies == s.countries[k].armies
                && s'.countries[k].generals == s.countries[k].generals
      {
        var c' := AdvanceCountry(s.countries[k], s.tiles, s.armies);
        assert s'.countries[k] == c';
      }
    }
    SameBooksKeepConsistency(s, s');
  }

  /** The state with a new army filed under a fresh id, on its nation's roster, with its general assigned. */
  function Enlisted(s: GameState, k: string, c: Country, army: Army, g: string): GameState
    requires g in s.generals
  {
    s.(countries := s.countries[k := c], armies := s.armies[army.id := army],
       generals := s.generals[g := s.generals[g].(status := Assigned)])
  }

  predicate EnlistRequires(s: GameState, k: string, c: Country, army: Army, g: string) {
    && Consistent(s) && k in s.countries && g in s.generals && army.id !in s.armies && army.ownerId == k
    && c == s.countries[k].(units := c.units, armies := s.countries[k].armies + [army.id])
  }

  lemma EnlistKeepsRostersSound(s: GameState, k: string, c: Country, army: Army, g: string)
    requires EnlistRequires(s, k, c, army, g)
    ensures RostersSound(Enlisted(s, k, c, army, g))
  {
    var s' := Enlisted(s, k, c, army, g);
    forall j, i | j in s'.countries && 0 <= i < |s'.countries[j].armies|
      ensures s'.countries[j].armies[i] in s'.armies && s'.armies[s'.countries[j].armies[i]].ownerId == j
    {
      if j != k || i < |s.countries[k].armies| {
        var x := s.countries[j].armies[i];
        assert s'.countries[j].armies[i] == x;
        assert x in s.armies && x != army.id;
      }
    }
  }

  lemma EnlistKeepsRostersComplete(s: GameState, k: string, c: Country, army: Army, g: string)
    requires EnlistRequires(s, k, c, army, g)
    ensures RostersComplete(Enlisted(s, k, c, army, g))
  {
    var s' := Enlisted(s, k, c, army, g);
    forall x | x in s'.armies && s'.armies[x].ownerId in s'.countries
      ensures x in s'.countries[s'.armies[x].ownerId].armies
    {
      if x != army.id {
        assert x in s.countries[s.armies[x].ownerId].armies;
      }
    }
  }

  lemma EnlistKeepsConsistency(s: GameState, k: string, c: Country, army: Army, g: string)
    requires EnlistRequires(s, k, c, army, g)
    ensures Consistent(Enlisted(s, k, c, army, g))
  {
    var s' := Enlisted(s, k, c, army, g);
    EnlistKeepsRostersSound(s, k, c, army, g);
    EnlistKeepsRostersComplete(s, k, c, army, g);
    assert GeneralRostersSound(s') by {
      forall j, i | j in s'.countries && 0 <= i < |s'.countries[j].generals|
        ensures s'.countries[j].generals[i] in s'.generals
      {
        assert s.countries[j].generals[i] in s.generals;
      }
    }
  }

  lemma FormArmyKeepsConsistency(s: GameState, k: string, g: string, units: map<UnitId, int>, loc: string, id: string)
    requires Consistent(s) && id !in s.armies && FormArmy(s, k, g, units, loc, id).Ok?
    ensures Consistent(FormArmy(s, k, g, units, loc, id).value)
  {
    var s' := FormArmy(s, k, g, units, loc, id).value;
    assert s' == Enlisted(s, k, s'.countries[k], s'.armies[id], g);
    EnlistKeepsConsistency(s, k, s'.countries[k], s'.armies[id], g);
  }

  lemma HireGeneralKeepsConsistency(s: GameState, k: string, id: string, stats: GeneralStats)
    requires Consistent(s) && HireGeneral(s, k, id, stats).Ok?
    ensures Consistent(HireGeneral(s, k, id, stats).value)
  {
    var s' := HireGeneral(s, k, id, stats).value;
    if s' != s {
      assert RostersSound(s') by {
        forall j, i | j in s'.countries && 0 <= i < |s'.countries[j].armies|
          ensures s'.countries[j].armies[i] in s'.armies && s'.armies[s'.countries[j].armies[i]].ownerId == j
        {
          assert s'.countries[j].armies[i] == s.countries[j].armies[i];
        }
      }
      assert RostersComplete(s') by {
        forall x | x in s'.armies && s'.armies[x].ownerId in s'.countries
          ensures x in s'.countries[s'.armies[x].ownerId].armies
        {
          assert x in s.countries[s.armies[x].ownerId].armies;
        }
      }
      assert GeneralRostersSound(s') by {
        forall j, i | j in s'.countries && 0 <= i < |s'.countries[j].generals|
          ensures s'.countries[j].generals[i] in s'.generals
        {
          if j != k || i < |s.countries[k].generals| {
            assert s'.countries[j].generals[i] == s.countries[j].generals[i];
          }
        }
      }
    }
  }

  lemma MarchKeepsConsistency(s: GameState, armyId: string, ti: nat)
    requires Consistent(s) && armyId in s.armies && ti < |s.tiles|
    ensures Consistent(MarchTo(s, armyId, ti))
  {
    var a := s.armies[armyId];
    var t := s.tiles[ti];
    var moved := s.(armies := s.armies[armyId := a.(location := t.id, movementPoints := a.movementPoints - t.movementCost)]);
    ReviseArmyKeepsConsistency(s, armyId, moved.armies[armyId]);
    if Truthy(t.ownerId) {
      MarchOnHeldTile(s, armyId, ti);
      Transfer(moved, MarchTo(s, armyId, ti));
    } else {
      var claimed := moved.(tiles := moved.tiles[ti := moved.tiles[ti].(ownerId := Some(a.ownerId))]);
      ClaimKeepsConsistency(moved, ti, a.ownerId);
      MarchOntoFreeTile(s, armyId, ti);
      Transfer(claimed, MarchTo(s, armyId, ti));
    }
  }

  lemma Transfer(s: GameState, s': GameState)
    requires Consistent(s) && s' == s
    ensures Consistent(s')
  {
  }

  /** Onto a tile nobody holds, a march relocates the army and claims the tile. */
  lemma MarchOntoFreeTile(s: GameState, armyId: string, ti: nat)
    requires armyId in s.armies && ti < |s.tiles| && !Truthy(s.tiles[ti].ownerId)
    ensures var a := s.armies[armyId];
            var t := s.tiles[ti];
            var moved := s.(armies := s.armies[armyId := a.(location := t.id, movementPoints := a.movementPoints - t.movementCost)]);
            MarchTo(s, armyId, ti) == moved.(tiles := moved.tiles[ti := moved.tiles[ti].(ownerId := Some(a.ownerId))])
  {
  }

  /** Onto a held tile, a march only relocates the army. */
  lemma MarchOnHeldTile(s: GameState, armyId: string, ti: nat)
    requires armyId in s.armies && ti < |s.tiles| && Truthy(s.tiles[ti].ownerId)
    ensures var a := s.armies[armyId];
            var t := s.tiles[ti];
            MarchTo(s, armyId, ti) == s.(armies := s.armies[armyId := a.(location := t.id, movementPoints := a.movementPoints - t.movementCost)])
  {
    var s' := MarchTo(s, armyId, ti);
    assert s'.tiles == s.tiles;
  }

  lemma BuryFallenKeepsConsistency(s1: GameState, armyId: string, a: Army)
    requires Consistent(s1) && armyId in s1.armies && a.ownerId == s1.armies[armyId].ownerId
    requires a.ownerId in s1.countries && BuryFallen(s1, armyId, a).Ok?
    ensures Consistent(BuryFallen(s1, armyId, a).value)
  {
    if UnitTotal(s1.armies[armyId].units) <= 0 {
      DisbandKeepsConsistency(s1, armyId);
      var dis := Disband(s1, armyId, a.ownerId);
      BuryKeepsConsistency(dis, a.generalId);
      assert BuryFallen(s1, armyId, a).value == dis.(generals := dis.generals[a.generalId := dis.generals[a.generalId].(status := Dead)]);
    }
  }

  lemma ConquerKeepsConsistency(s2: GameState, e: Option<string>, enemyOwner: string, ti: nat, owner: string)
    requires Consistent(s2) && ti < |s2.tiles| && owner in s2.countries && enemyOwner in s2.countries
    requires e.Some? ==> e.value in s2.armies && enemyOwner == s2.armies[e.value].ownerId
    ensures Consistent(Conquer(s2, e, enemyOwner, ti, owner))
  {
    var s3 := match e
              case Some(x) => Disband(s2, x, enemyOwner)
              case None => s2;
    assert Consistent(s3) by {
      if e.Some? {
        DisbandKeepsConsistency(s2, e.value);
      }
    }
    ClaimKeepsConsistency(s3, ti, owner);
  }

  /** Taking the tile and halting a surviving attacker keeps the books. */
  lemma OccupyOrHoldKeepsConsistency(s2: GameState, armyId: string, fought: Army, e: Option<string>, enemyOwner: string,
                                     ti: nat, won: bool)
    requires Consistent(s2) && enemyOwner in s2.countries && ti < |s2.tiles| && fought.ownerId in s2.countries
    requires armyId in s2.armies ==> fought.id == s2.armies[armyId].id && fought.ownerId == s2.armies[armyId].ownerId
    requires e.Some? ==> e.value != armyId
    requires e.Some? && e.value in s2.armies ==> enemyOwner == s2.armies[e.value].ownerId
    ensures Consistent(OccupyOrHold(s2, armyId, fought, e, enemyOwner, ti, won))
  {
    if won {
      VictoryKeepsConsistency(s2, armyId, fought, e, enemyOwner, ti);
    } else if armyId in s2.armies {
      ReviseArmyKeepsConsistency(s2, armyId, fought.(movementPoints := 0));
    }
  }

  lemma VictoryKeepsConsistency(s2: GameState, armyId: string, fought: Army, e: Option<string>, enemyOwner: string, ti: nat)
    requires Consistent(s2) && enemyOwner in s2.countries && ti < |s2.tiles| && fought.ownerId in s2.countries
    requires armyId in s2.armies ==> fought.id == s2.armies[armyId].id && fought.ownerId == s2.armies[armyId].ownerId
    requires e.Some? ==> e.value != armyId
    requires e.Some? && e.value in s2.armies ==> enemyOwner == s2.armies[e.value].ownerId
    ensures Consistent(OccupyOrHold(s2, armyId, fought, e, enemyOwner, ti, true))
  {
    var s4 := Conquer(s2, e, enemyOwner, ti, fought.ownerId);
    ConquestKeepsConsistency(s2, e, enemyOwner, ti, fought.ownerId);
    if armyId in s2.armies {
      assert armyId in s4.armies;
      ReviseArmyKeepsConsistency(s4, armyId, fought.(location := s2.tiles[ti].id, movementPoints := 0));
    }
  }

  /** Conquest keeps the books also when the defending army is already gone. */
  lemma ConquestKeepsConsistency(s2: GameState, e: Option<string>, enemyOwner: string, ti: nat, owner: string)
    requires Consistent(s2) && ti < |s2.tiles| && owner in s2.countries && enemyOwner in s2.countries
    requires e.Some? && e.value in s2.armies ==> enemyOwner == s2.armies[e.value].ownerId
    ensures Consistent(Conquer(s2, e, enemyOwner, ti, owner))
  {
    if e.Some? && e.value !in s2.armies {
      WithoutAbsent(s2, enemyOwner, e.value);
      assert Disband(s2, e.value, enemyOwner) == s2;
      assert Conquer(s2, e, enemyOwner, ti, owner) == Conquer(s2, None, enemyOwner, ti, owner);
      ConquerKeepsConsistency(s2, None, enemyOwner, ti, owner);
    } else {
      ConquerKeepsConsistency(s2, e, enemyOwner, ti, owner);
    }
  }

  /** Dropping an id that is not on a consistent roster leaves the roster as it is. */
  lemma WithoutAbsent(s: GameState, owner: string, id: string)
    requires Consistent(s) && owner in s.countries && id !in s.armies
    ensures Without(s.countries[owner].armies, id) == s.countries[owner].armies
  {
    var r := s.countries[owner].armies;
    assert id !in r;
    WithoutMissing(r, id);
  }

  lemma {:induction false} WithoutMissing(xs: seq<string>, x: string)
    requires x !in xs
    ensures Without(xs, x) == xs
  {
    if |xs| > 0 {
      WithoutMissing(xs[1..], x);
      assert xs == [xs[0]] + xs[1..];
    }
  }

  /** What the settling step needs to know about the state after the burial. */
  lemma BurialKeepsConsistency(s1: GameState, armyId: string, a: Army, e: Option<string>, enemyOwner: string)
    requires Consistent(s1) && armyId in s1.armies && a.ownerId == s1.armies[armyId].ownerId
    requires a.ownerId in s1.countries && enemyOwner in s1.countries
    requires e.Some? ==> e.value in s1.armies && e.value != armyId && enemyOwner == s1.armies[e.value].ownerId
    requires BuryFallen(s1, armyId, a).Ok?
    ensures var s2 := BuryFallen(s1, armyId, a).value;
            && Consistent(s2) && enemyOwner in s2.countries && a.ownerId in s2.countries && s2.tiles == s1.tiles
            && (armyId in s2.armies ==> s2.armies[armyId] == s1.armies[armyId])
            && (e.Some? && e.value in s2.armies ==> enemyOwner == s2.armies[e.value].ownerId)
  {
    var s2 := BuryFallen(s1, armyId, a).value;
    BuryFallenKeepsConsistency(s1, armyId, a);
    if UnitTotal(s1.armies[armyId].units) > 0 {
      assert s2 == s1;
    } else {
      assert s2.armies == s1.armies - {armyId};
      assert s2.tiles == s1.tiles;
    }
  }

  lemma AftermathKeepsConsistency(s1: GameState, armyId: string, a: Army, e: Option<string>, enemyOwner: string, ti: nat, won: bool)
    requires Consistent(s1) && armyId in s1.armies && a.ownerId == s1.armies[armyId].ownerId
    requires a.ownerId in s1.countries
    requires e.Some? ==> e.value in s1.armies && e.value != armyId && enemyOwner == s1.armies[e.value].ownerId
    requires enemyOwner in s1.countries && ti < |s1.tiles|
    requires Aftermath(s1, armyId, a, e, enemyOwner, ti, won).Ok?
    ensures Consistent(Aftermath(s1, armyId, a, e, enemyOwner, ti, won).value)
  {
    var s2 := BuryFallen(s1, armyId, a).value;
    BurialKeepsConsistency(s1, armyId, a, e, enemyOwner);
    OccupyOrHoldKeepsConsistency(s2, armyId, s1.armies[armyId], e, enemyOwner, ti, won);
  }

  /** Recording the battle changes unit counts and the dialog only. */
  lemma FightKeepsConsistency(s: GameState, armyId: string, ti: nat, d: Draws)
    requires Consistent(s) && armyId in s.armies && ti < |s.tiles|
    requires ValidRoll(d.attackRoll) && ValidRoll(d.defenceRoll)
    requires d.defenderArmy.Some? ==> HostileAt(s.armies, s.armies[armyId].ownerId, s.tiles[ti].id, d.defenderArmy.value)
    requires Fight(s, armyId, ti, d).Ok?
    ensures Consistent(Fight(s, armyId, ti, d).value.after)
  {
    var f := Fight(s, armyId, ti, d).value;
    assert SameBooks(s, f.after) by {
      forall k | k in s.armies
        ensures f.after.armies[k].id == s.armies[k].id && f.after.armies[k].ownerId == s.armies[k].ownerId
      {
        if k != armyId && Some(k) != f.opponent {
          assert f.after.armies[k] == s.armies[k];
        }
      }
    }
    SameBooksKeepConsistency(s, f.after);
  }

  lemma AssaultKeepsConsistency(s: GameState, armyId: string, ti: nat, d: Draws)
    requires Consistent(s) && armyId in s.armies && ti < |s.tiles|
    requires ValidRoll(d.attackRoll) && ValidRoll(d.defenceRoll)
    requires d.defenderArmy.Some? ==> HostileAt(s.armies, s.armies[armyId].ownerId, s.tiles[ti].id, d.defenderArmy.value)
    requires Assault(s, armyId, ti, d).Ok?
    ensures Consistent(Assault(s, armyId, ti, d).value)
  {
    var f := Fight(s, armyId, ti, d).value;
    FightKeepsConsistency(s, armyId, ti, d);
    AftermathKeepsConsistency(f.after, armyId, s.armies[armyId], f.opponent, f.enemyOwner, ti, f.won);
  }

  lemma MoveKeepsConsistency(s: GameState, armyId: string, target: string, d: Draws)
    requires Consistent(s)
    requires ValidRoll(d.attackRoll) && ValidRoll(d.defenceRoll)
    requires ValidDefenderPick(s, MoveArmy(armyId, target), d.defenderArmy)
    requires Move(s, armyId, target, d).Ok?
    ensures Consistent(Move(s, armyId, target, d).value)
  {
    if armyId in s.armies && s.armies[armyId].movementPoints > 0 && !MoveRefused(s, armyId, target) {
      var to := FindTile(s.tiles, target);
      if to.Some? {
        if EnemyTerritory(s.tiles[to.value], s.armies[armyId].ownerId) {
          AssaultKeepsConsistency(s, armyId, to.value, d);
        } else {
          MarchKeepsConsistency(s, armyId, to.value);
        }
      }
    }
  }

  lemma BuildKeepsConsistency(s: GameState, k: string, b: BuildingType, n: int)
    requires Consistent(s) && Build(s, k, b, n).Ok?
    ensures Consistent(Build(s, k, b, n).value)
  {
    var s' := Build(s, k, b, n).value;
    if s' != s {
      var c := s.countries[k];
      var c' := s'.countries[k];
      assert s' == s.(countries := s.countries[k := c']);
      assert c' == c.(resources := c'.resources, buildings := c'.buildings);
      ReviseCountryKeepsConsistency(s, k, c');
    }
  }

  lemma RecruitKeepsConsistency(s: GameState, k: string, u: UnitId, n: int)
    requires Consistent(s) && Recruit(s, k, u, n).Ok?
    ensures Consistent(Recruit(s, k, u, n).value)
  {
    var s' := Recruit(s, k, u, n).value;
    if s' != s {
      var c := s.countries[k];
      var c' := s'.countries[k];
      assert s' == s.(countries := s.countries[k := c']);
      assert c' == c.(resources := c'.resources, units := c'.units);
      ReviseCountryKeepsConsistency(s, k, c');
    }
  }

  /** The commands that only touch the calendar or the treasury. */
  lemma PurchaseStepKeepsConsistency(s: GameState, a: GameAction, d: Draws)
    requires Consistent(s) && ValidDraws(s, a, d)
    requires a.NextTurn? || a.BuildBuilding? || a.RecruitUnit?
    requires Reduce(s, a, d).Ok?
    ensures Consistent(Reduce(s, a, d).value)
  {
    match a
    case NextTurn =>
      assert Reduce(s, a, d) == Ok(AdvanceTurn(s, d.freshId));
      AdvanceTurnKeepsConsistency(s, d.freshId);
    case BuildBuilding(k, b, n) =>
      assert Reduce(s, a, d) == Build(s, k, b, n);
      BuildKeepsConsistency(s, k, b, n);
    case RecruitUnit(k, u, n) =>
      assert Reduce(s, a, d) == Recruit(s, k, u, n);
      RecruitKeepsConsistency(s, k, u, n);
  }

  /** The commands that raise armies and generals. */
  lemma StaffingStepKeepsConsistency(s: GameState, a: GameAction, d: Draws)
    requires Consistent(s) && ValidDraws(s, a, d) && FreshIds(s, a, d)
    requires a.CreateArmy? || a.RecruitGeneral?
    requires Reduce(s, a, d).Ok?
    ensures Consistent(Reduce(s, a, d).value)
  {
    match a
    case CreateArmy(k, g, units, loc) =>
      assert Reduce(s, a, d) == FormArmy(s, k, g, units, loc, d.freshId);
      FormArmyKeepsConsistency(s, k, g, units, loc, d.freshId);
    case RecruitGeneral(k) =>
      assert Reduce(s, a, d) == HireGeneral(s, k, d.freshId, d.generalStats);
      HireGeneralKeepsConsistency(s, k, d.freshId, d.generalStats);
  }

  lemma MoveStepKeepsConsistency(s: GameState, a: GameAction, d: Draws)
    requires Consistent(s) && ValidDraws(s, a, d) && a.MoveArmy?
    requires Reduce(s, a, d).Ok?
    ensures Consistent(Reduce(s, a, d).value)
  {
    assert Reduce(s, a, d) == Move(s, a.armyId, a.targetTileId, d);
    MoveKeepsConsistency(s, a.armyId, a.targetTileId, d);
  }

  /** The selection and dialog commands leave every record alone. */
  lemma InteractKeepsConsistency(s: GameState, a: GameAction)
    requires Consistent(s) && InterfaceOnly(a)
    ensures Consistent(Interact(s, a))
  {
    var s' := Interact(s, a);
    assert s'.countries == s.countries && s'.armies == s.armies && s'.generals == s.generals && s'.tiles == s.tiles;
  }

  lemma InterfaceStepKeepsConsistency(s: GameState, a: GameAction, d: Draws)
    requires Consistent(s) && ValidDraws(s, a, d)
    requires InterfaceOnly(a) || PassThrough(a)
    ensures Reduce(s, a, d).Ok? && Consistent(Reduce(s, a, d).value)
  {
    if InterfaceOnly(a) {
      assert Reduce(s, a, d) == Ok(Interact(s, a));
      InteractKeepsConsistency(s, a);
    } else {
      assert Reduce(s, a, d) == Ok(s);
    }
  }

  /** Every successful reducer step keeps the books, given a fresh id for a new army. */
  lemma ReduceKeepsConsistency(s: GameState, a: GameAction, d: Draws)
    requires Consistent(s) && ValidDraws(s, a, d) && FreshIds(s, a, d)
    requires Reduce(s, a, d).Ok?
    ensures Consistent(Reduce(s, a, d).value)
  {
    if a.MoveArmy? {
      MoveStepKeepsConsistency(s, a, d);
    } else if a.CreateArmy? || a.RecruitGeneral? {
      StaffingStepKeepsConsistency(s, a, d);
    } else if a.NextTurn? || a.BuildBuilding? || a.RecruitUnit? {
      PurchaseStepKeepsConsistency(s, a, d);
    } else {
      InterfaceStepKeepsConsistency(s, a, d);
    }
  }
}
