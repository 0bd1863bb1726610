/** The diplomatic channel (DiplomacyView.tsx): how much of another nation's state the
    intelligence level lets the player see, and which war button the panel offers. */
module Intel {
  import opened Types
  import Combat
  import Engine
  import WorldGen

  /** `intelligence[target] || 0`: a missing entry reads as no intelligence at all. */
  function IntelLevel(observer: Country, targetId: string): (level: int)
    ensures targetId in observer.intelligence ==> level == observer.intelligence[targetId]
    ensures targetId !in observer.intelligence ==> level == 0
  {
    if targetId in observer.intelligence then observer.intelligence[targetId] else 0
  }

  datatype Vagueness = Nothing | Low | Medium | High

  /** What the panel prints for a value: the value itself, a range, a vague word, or "???". */
  datatype Observation = Exact(value: real) | Between(lo: int, hi: int) | Vague(word: Vagueness) | Hidden

  /** The ±20% range, in exact arithmetic: floor(0.8 v) to ceil(1.2 v). */
  function Spread(v: real): Observation {
    Between((v * 0.8).Floor, Combat.Ceil(v * 1.2))
  }

  function Bucket(v: real): Vagueness {
    if v == 0.0 then Nothing else if v < 100.0 then Low else if v < 1000.0 then Medium else High
  }

  /** getObservedValue: exact from 90, a range from 50, a word from 20, nothing below. */
  function Observe(level: int, v: real): (o: Observation)
    ensures level >= 90 <==> o.Exact?
    ensures 50 <= level < 90 <==> o.Between?
    ensures 20 <= level < 50 <==> o.Vague?
    ensures level < 20 <==> o == Hidden
  {
    if level >= 90 then Exact(v)
    else if level >= 50 then Spread(v)
    else if level >= 20 then Vague(Bucket(v))
    else Hidden
  }

  /** The values a reader of the panel can still believe after seeing `o`. */
  predicate Admits(o: Observation, v: real) {
    match o
    case Exact(x) => x == v
    case Between(lo, hi) => lo as real <= v <= hi as real
    case Vague(Nothing) => v == 0.0
    case Vague(Low) => v != 0.0 && v < 100.0
    case Vague(Medium) => 100.0 <= v < 1000.0
    case Vague(High) => v >= 1000.0
    case Hidden => true
  }

  /** How much an observation gives away. */
  function Detail(o: Observation): nat {
    match o
    case Hidden => 0
    case Vague(_) => 1
    case Between(_, _) => 2
    case Exact(_) => 3
  }

  /** A non-negative value always lies in its ±20% range; from -5 down the bounds cross and the
      range admits nothing. Between -5 and 0 it depends on the rounding: see `SpreadNearZero`. */
  lemma SpreadBounds(v: real)
    ensures v >= 0.0 ==> Admits(Spread(v), v)
    ensures v <= -5.0 ==> Spread(v).hi < Spread(v).lo && !Admits(Spread(v), v)
  {
    var lo := (v * 0.8).Floor;
    var hi := Combat.Ceil(v * 1.2);
    assert lo as real <= v * 0.8 < lo as real + 1.0;
    assert v * 1.2 <= hi as real < v * 1.2 + 1.0;
  }

  /** Between -5 and 0 the range may or may not cover the value: -1 gives the range -1..-1,
      which holds it, while -2.5 gives the crossed range -2..-3, which holds nothing. */
  lemma SpreadNearZero()
    ensures Spread(-1.0) == Between(-1, -1) && Admits(Spread(-1.0), -1.0)
    ensures Spread(-2.5) == Between(-2, -3) && !Admits(Spread(-2.5), -2.5)
  {
    assert (-1.0 * 0.8).Floor == -1;
    assert Combat.Ceil(-1.0 * 1.2) == -1;
    assert (-2.5 * 0.8).Floor == -2;
    assert Combat.Ceil(-2.5 * 1.2) == -3;
  }

  /** The report never misleads about a non-negative value, and the vague words are truthful for
      every value; only the range can exclude a (negative) value. */
  lemma ReportIsTruthful(level: int, v: real)
    ensures v >= 0.0 ==> Admits(Observe(level, v), v)
    ensures !Observe(level, v).Between? ==> Admits(Observe(level, v), v)
    ensures 50 <= level < 90 && v <= -5.0 ==> !Admits(Observe(level, v), v)
  {
    SpreadBounds(v);
  }

  /** Better intelligence never shows less. */
  lemma MoreIntelShowsMore(level: int, higher: int, v: real)
    requires level <= higher
    ensures Detail(Observe(level, v)) <= Detail(Observe(higher, v))
  {
  }

  /** At the start every nation holds intelligence 10 on every other nation and none on itself,
      so every figure of every foreign country, and of its own, reads "???". */
  lemma OpeningIntelHidesEverything(playerIndex: int, k: string, targetId: string, v: real)
    requires k in WorldGen.Nations(playerIndex)
    ensures Observe(IntelLevel(WorldGen.Nations(playerIndex)[k], targetId), v) == Hidden
  {
    WorldGen.NationsAtStart(playerIndex);
    assert WorldGen.FreshNation(WorldGen.Nations(playerIndex)[k], k);
  }

  /** What the intelligence report shows: treasury, soldiers plus five per tank, and population. */
  datatype Report = Report(treasury: Observation, military: Observation, population: Observation)

  function ReportOn(observer: Country, target: Country): (r: Report)
    ensures var level := IntelLevel(observer, target.id);
            && ((target.resources.money >= 0.0 || level >= 90) ==> Admits(r.treasury, target.resources.money))
            && (level < 20 <==> r == Report(Hidden, Hidden, Hidden))
    ensures IntelLevel(observer, target.id) >= 90 ==>
              r == Report(Exact(target.resources.money),
                          Exact((target.units[Soldier] + 5 * target.units[Tank]) as real),
                          Exact(target.resources.population))
    ensures var level, m := IntelLevel(observer, target.id), (target.units[Soldier] + 5 * target.units[Tank]) as real;
            (m >= 0.0 || level >= 90) ==> Admits(r.military, m)
    ensures var level := IntelLevel(observer, target.id);
            (target.resources.population >= 0.0 || level >= 90) ==> Admits(r.population, target.resources.population)
  {
    var level := IntelLevel(observer, target.id);
    ReportIsTruthful(level, target.resources.money);
    ReportIsTruthful(level, (target.units[Soldier] + target.units[Tank] * 5) as real);
    ReportIsTruthful(level, target.resources.population);
    Report(Observe(level, target.resources.money),
           Observe(level, (target.units[Soldier] + target.units[Tank] * 5) as real),
           Observe(level, target.resources.population))
  }

  // --- The war button ------------------------------------------------------------------

  datatype WarButton = AttackButton | DeclareWarButton

  function WarButtonFor(rel: Relation): (b: WarButton)
    ensures b == AttackButton <==> rel.status == War
  {
    if rel.status == War then AttackButton else DeclareWarButton
  }

  predicate AtPeace(relations: map<string, map<string, Relation>>) {
    forall a, b :: a in relations && b in relations[a] ==> relations[a][b].status != War
  }

  /** No relation starts at war. */
  lemma NoWarAtStart()
    ensures AtPeace(WorldGen.InitialRelations())
  {
    WorldGen.RelationsAtStart();
  }

  /** No command changes a relation (declaring war is passed through untouched), so peace is kept
      and the panel keeps offering the declare-war button, never the attack button. */
  lemma PeaceIsKept(s: GameState, a: GameAction, d: Engine.Draws)
    requires Engine.ValidDraws(s, a, d)
    requires AtPeace(s.relations)
    ensures Engine.Reduce(s, a, d).Ok? ==> AtPeace(Engine.Reduce(s, a, d).value.relations)
    ensures Engine.Reduce(s, a, d).Ok? ==>
              forall x, y :: x in s.relations && y in s.relations[x] ==>
                WarButtonFor(Engine.Reduce(s, a, d).value.relations[x][y]) == DeclareWarButton
  {
  }
}
