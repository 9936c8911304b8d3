/** List composition checks (services/ValidationService.ts). `getErrors` runs
    every check in a fixed order and collects one message per failed check.
    The price of a unit comes from the upgrade service, the parameter `total`. */
module Validation {
  import opened Basics
  import opened Helpers
  import opened Army
  import opened Units

  // ---------------------------------------------------------------------------
  // Threshold tables (ValidationService.ts:7-27). A system outside the table
  // reads `undefined`, the division gives `NaN` and the check never fires.
  // ---------------------------------------------------------------------------

  function UnitPointThreshold(system: string): (r: Option<nat>)
    ensures r.Some? ==> r.value > 0
  {
    if system == "gf" then Some(200)
    else if system == "gff" then Some(30)
    else if system == "aof" || system == "aofr" then Some(165)
    else if system == "aofs" then Some(25)
    else None
  }

  function HeroPointThreshold(system: string): (r: Option<nat>)
    ensures r.Some? ==> r.value > 0
  {
    if system == "gf" || system == "aof" || system == "aofr" then Some(500)
    else if system == "gff" || system == "aofs" then Some(150)
    else None
  }

  function DuplicateUnitThreshold(system: string): (r: Option<nat>)
    ensures r.Some? ==> r.value > 0
  {
    if system == "gf" || system == "aof" || system == "aofr" then Some(1000)
    else if system == "gff" || system == "aofs" then Some(150)
    else None
  }

  predicate IsBattleSystem(system: string) {
    system == "gf" || system == "aof" || system == "aofr"
  }

  predicate IsSkirmishSystem(system: string) {
    system == "gff" || system == "aofs"
  }

  /** The three tables cover the same five systems, the battle and skirmish ones. */
  lemma ThresholdTablesAgree(system: string)
    ensures UnitPointThreshold(system).Some? <==> IsBattleSystem(system) || IsSkirmishSystem(system)
    ensures HeroPointThreshold(system).Some? <==> UnitPointThreshold(system).Some?
    ensures DuplicateUnitThreshold(system).Some? <==> UnitPointThreshold(system).Some?
    ensures !(IsBattleSystem(system) && IsSkirmishSystem(system))
  {
  }

  // ---------------------------------------------------------------------------
  // What the checks count
  // ---------------------------------------------------------------------------

  /** `list.pointsLimit || list.points`. */
  function EffectivePoints(list: ListState): nat
  {
    if list.pointsLimit != 0 then list.pointsLimit else list.points
  }

  /** `1 + Math.floor(points / duplicateUnitThresholds[system])`. */
  function DuplicateUnitLimit(points: nat, system: string): Option<nat>
  {
    match DuplicateUnitThreshold(system)
    case Some(d) => Some(1 + points / d)
    case None => None
  }

  predicate HasSelectionId(units: seq<Unit>, id: string) {
    exists t :: t in units && t.selectionId == id
  }

  /** A hero whose join target is in the list. */
  function JoinsExisting(units: seq<Unit>): Unit -> bool
  {
    (u: Unit) => u.joinToUnit.Some? && HasSelectionId(units, u.joinToUnit.value)
  }

  function JoinedHeroes(units: seq<Unit>): seq<Unit>
  {
    Filter(Filter(units, IsHero), JoinsExisting(units))
  }

  function JoinedIds(joined: seq<Unit>): (ids: seq<string>)
    ensures |ids| == |joined|
  {
    seq(|joined|, i requires 0 <= i < |joined| => match joined[i].joinToUnit case Some(t) => t case None => "")
  }

  /** Units that count towards the copy limit: all but combined root units. */
  predicate CountsAsCopy(u: Unit) {
    !(u.combined && u.joinToUnit.None?)
  }

  function UnitId(u: Unit): string { u.id }

  /** The name of the first unit of the list with catalogue id `id`. */
  function NameOfId(units: seq<Unit>, id: string): string
  {
    match FindById(units, id)
    case Some(u) => u.name
    case None => ""
  }

  /** The catalogue ids with more counted copies than `limit`, in `Object.keys` order. */
  function IdsOverLimit(counted: seq<Unit>, ids: seq<string>, limit: nat): seq<string>
  {
    if |ids| == 0 then []
    else
      IdsOverLimit(counted, ids[..|ids| - 1], limit)
        + (if |Bucket(counted, UnitId, ids[|ids| - 1])| > limit then [ids[|ids| - 1]] else [])
  }

  function NamesOf(units: seq<Unit>, ids: seq<string>): (names: seq<string>)
    ensures |names| == |ids|
  {
    seq(|ids|, i requires 0 <= i < |ids| => NameOfId(units, ids[i]))
  }

  /** `unitsOverDuplicateLimit`, read as names. */
  function NamesOverLimit(units: seq<Unit>, limit: nat): seq<string>
  {
    var counted := Filter(units, CountsAsCopy);
    NamesOf(units, IdsOverLimit(counted, KeyOrder(counted, UnitId), limit))
  }

  /** `_.sumBy(units, u => u.size)`. */
  function ModelCount(units: seq<Unit>): nat
  {
    if |units| == 0 then 0 else ModelCount(units[..|units| - 1]) + units[|units| - 1].size
  }

  predicate HasOptionLabelled(u: Unit, labelText: string) {
    exists i :: 0 <= i < |u.selectedUpgrades| && u.selectedUpgrades[i].option.labelText == labelText
  }

  function CarrierCount(units: seq<Unit>, labelText: string): nat
  {
    |Filter(units, u => HasOptionLabelled(u, labelText))|
  }

  function ArmyIdOf(u: Unit): string { u.armyId }

  /** `pointsByArmy`: the summed price of each army's units. */
  function PointsByArmy(units: seq<Unit>, total: Unit -> nat): (r: seq<nat>)
    ensures |r| == |KeyOrder(units, ArmyIdOf)|
  {
    GroupMap(units, ArmyIdOf, (group, key) => SumTotals(group, total))
  }

  /** `x / points * 100 >= 60`, cross-multiplied. */
  predicate ReachesSixtyPercent(x: nat, points: nat) {
    100 * x >= 60 * points
  }

  /** `u.unitPointsAll > points * 0.3333`, cross-multiplied. */
  predicate OverThirdOfPoints(f: FullUnit, points: nat) {
    f.unitPointsAll * 10000 > points * 3333
  }

  // ---------------------------------------------------------------------------
  // The checks
  // ---------------------------------------------------------------------------

  datatype Violation =
    | PointsLimitExceeded(points: nat, pointsLimit: nat)
    | TooManyHeroes(heroThreshold: nat)
    | TooManyUnits(unitThreshold: nat, battle: bool)
    | TooManyCopies(copyLimit: nat, unitNames: seq<string>)
    | UnitTooExpensive
    | CombinedSingleModel
    | HeroJoinsSingleModel
    | TwoHeroesJoined
    | HeroJoinsOtherFaction
    | TooManyModels(modelLimit: nat, modelCount: nat)
    | CommandUpgradeLimit
    | TooManyFactions
    | PrimaryFactionTooSmall

  /** Position of a check in the order `getErrors` runs them. */
  function Rank(v: Violation): nat
  {
    match v
    case PointsLimitExceeded(_, _) => 0
    case TooManyHeroes(_) => 1
    case TooManyUnits(_, _) => 2
    case TooManyCopies(_, _) => 3
    case UnitTooExpensive => 4
    case CombinedSingleModel => 5
    case HeroJoinsSingleModel => 6
    case TwoHeroesJoined => 7
    case HeroJoinsOtherFaction => 8
    case TooManyModels(_, _) => 9
    case CommandUpgradeLimit => 10
    case TooManyFactions => 11
    case PrimaryFactionTooSmall => 12
  }

  /** The message each failed check pushes. */
  function Message(v: Violation): string
  {
    match v
    case PointsLimitExceeded(p, l) => "Points limit exceeded: " + NatToString(p) + "/" + NatToString(l)
    case TooManyHeroes(h) => "Max 1 hero per full " + NatToString(h) + "pts."
    case TooManyUnits(u, battle) =>
      "Max 1 unit per full " + NatToString(u) + "pts" + (if battle then " (combined units count as just 1 unit)" else "") + "."
    case TooManyCopies(limit, names) =>
      "Cannot have more than " + NatToString(limit) + " copies of a particular unit (" + Join(names, ", ") + ")."
    case UnitTooExpensive => "May not bring any single unit worth more than 33% of total points."
    case CombinedSingleModel => "Cannot combine units of unit size [1]."
    case HeroJoinsSingleModel => "Heroes cannot join units that only contain a single model."
    case TwoHeroesJoined => "A unit can only have a maximum of one Hero attached."
    case HeroJoinsOtherFaction => "Heroes only join units from their own faction."
    case TooManyModels(limit, count) =>
      "Max 1 model per full 20pts. Maximum valid number of models is " + NatToString(limit)
        + ", current total is " + NatToString(count) + "."
    case CommandUpgradeLimit =>
      "Max 1 of the following upgrades per army (not one of each!): Sergeant, Musician or Battle Standard."
    case TooManyFactions => "Players may bring units from up to two factions in the same list."
    case PrimaryFactionTooSmall => "Mixed armies must consist of at least 60% worth of units from their primary faction."
  }

  /** The messages of the failed checks, one per check, in order. */
  function Render(vs: seq<Violation>): (ms: seq<string>)
    ensures |ms| == |vs| && forall i :: 0 <= i < |vs| ==> ms[i] == Message(vs[i])
  {
    Map(vs, Message)
  }

  predicate HeroTooMany(list: ListState, system: string) {
    var h := HeroPointThreshold(system);
    h.Some? && |Filter(list.units, IsHero)| > EffectivePoints(list) / h.value
  }

  predicate UnitsTooMany(list: ListState, system: string) {
    var u := UnitPointThreshold(system);
    u.Some? && |Filter(list.units, IsRoot)| > EffectivePoints(list) / u.value
  }

  predicate CopiesTooMany(list: ListState, system: string) {
    var limit := DuplicateUnitLimit(EffectivePoints(list), system);
    limit.Some? && |NamesOverLimit(list.units, limit.value)| > 0
  }

  predicate SomeUnitTooExpensive(list: ListState, total: Unit -> nat) {
    exists f :: f in GetFullUnitList(list.units, false, total) && OverThirdOfPoints(f, EffectivePoints(list))
  }

  predicate SomeCombinedSingle(units: seq<Unit>) {
    exists u :: u in units && u.combined && u.size == 1
  }

  predicate SomeHeroJoinsSingle(units: seq<Unit>) {
    exists u :: u in units && u.size == 1 && u.selectionId in JoinedIds(JoinedHeroes(units))
  }

  /** `new Set(joinedIds).size < joinedIds.length`. */
  predicate HasRepeat(ids: seq<string>) {
    exists i, j :: 0 <= i < j < |ids| && ids[i] == ids[j]
  }

  /** `list.units.find(unit => unit.selectionId === id)`. */
  function FindBySelectionId(units: seq<Unit>, id: string): (r: Option<Unit>)
    ensures r.Some? ==> r.value in units && r.value.selectionId == id
    ensures r.None? ==> !HasSelectionId(units, id)
    ensures r.Some? ==> exists i :: 0 <= i < |units| && units[i] == r.value && forall j :: 0 <= j < i ==> units[j].selectionId != id
  {
    if |units| == 0 then None
    else if units[0].selectionId == id then Some(units[0])
    else FindBySelectionId(units[1..], id)
  }

  predicate JoinsOtherFaction(units: seq<Unit>, hero: Unit) {
    hero.joinToUnit.Some?
    && match FindBySelectionId(units, hero.joinToUnit.value)
       case Some(t) => t.armyId != hero.armyId
       case None => false
  }

  predicate SomeHeroJoinsOtherFaction(units: seq<Unit>) {
    exists h :: h in JoinedHeroes(units) && JoinsOtherFaction(units, h)
  }

  function CommandUpgradeCarriers(units: seq<Unit>): nat
  {
    CarrierCount(units, "Sergeant") + CarrierCount(units, "Musician") + CarrierCount(units, "Battle Standard")
  }

  predicate PrimaryTooSmall(army: ArmyState, list: ListState, total: Unit -> nat) {
    list.points > 0 && |army.loadedArmyBooks| > 1
    && !(exists x :: x in PointsByArmy(list.units, total) && ReachesSixtyPercent(x, EffectivePoints(list)))
  }

  /** `if (failed) errors.push(message)`, on the recorded violations. */
  function Record(found: seq<Violation>, failed: bool, v: Violation): seq<Violation>
  {
    if failed then found + [v] else found
  }

  /** A table entry; only read when the entry is present. */
  function Entry(t: Option<nat>): nat
  {
    match t
    case Some(n) => n
    case None => 0
  }

  /** The points, hero and unit-count checks, recorded after `found`. */
  function CountChecks(found: seq<Violation>, list: ListState, system: string): seq<Violation>
  {
    var s1 := Record(found, list.pointsLimit > 0 && list.points > list.pointsLimit, PointsLimitExceeded(list.points, list.pointsLimit));
    var s2 := Record(s1, HeroTooMany(list, system), TooManyHeroes(Entry(HeroPointThreshold(system))));
    Record(s2, UnitsTooMany(list, system), TooManyUnits(Entry(UnitPointThreshold(system)), IsBattleSystem(system)))
  }

  /** The copy-limit and 33% checks. */
  function CopyAndCostChecks(found: seq<Violation>, list: ListState, system: string, total: Unit -> nat): seq<Violation>
  {
    var limit := Entry(DuplicateUnitLimit(EffectivePoints(list), system));
    var s := Record(found, CopiesTooMany(list, system), TooManyCopies(limit, NamesOverLimit(list.units, limit)));
    Record(s, SomeUnitTooExpensive(list, total), UnitTooExpensive)
  }

  /** The four attachment checks of battle systems. */
  function BattleChecks(found: seq<Violation>, units: seq<Unit>): seq<Violation>
  {
    var s1 := Record(found, SomeCombinedSingle(units), CombinedSingleModel);
    var s2 := Record(s1, SomeHeroJoinsSingle(units), HeroJoinsSingleModel);
    var s3 := Record(s2, HasRepeat(JoinedIds(JoinedHeroes(units))), TwoHeroesJoined);
    Record(s3, SomeHeroJoinsOtherFaction(units), HeroJoinsOtherFaction)
  }

  /** The checks of battle systems, of skirmish systems, and of Age of Fantasy: Skirmish. */
  function SystemChecks(found: seq<Violation>, list: ListState, system: string): seq<Violation>
  {
    var points := EffectivePoints(list);
    var s :=
      if IsBattleSystem(system) then BattleChecks(found, list.units)
      else if IsSkirmishSystem(system) then
        Record(found, ModelCount(list.units) > points / 20, TooManyModels(points / 20, ModelCount(list.units)))
      else found;
    Record(s, system == "aofs" && CommandUpgradeCarriers(list.units) > 1, CommandUpgradeLimit)
  }

  /** The checks on the factions a list draws from. */
  function FactionChecks(found: seq<Violation>, army: ArmyState, list: ListState, total: Unit -> nat): seq<Violation>
  {
    var s := Record(found, |army.loadedArmyBooks| > 2, TooManyFactions);
    Record(s, PrimaryTooSmall(army, list, total), PrimaryFactionTooSmall)
  }

  /** The failed checks of a list, in the order `getErrors` runs them. */
  function Violations(army: ArmyState, list: ListState, total: Unit -> nat): seq<Violation>
  {
    var system := army.gameSystem;
    var general := CopyAndCostChecks(CountChecks([], list, system), list, system, total);
    FactionChecks(SystemChecks(general, list, system), army, list, total)
  }

  /** Rendering goes message by message, so it distributes over concatenation. */
  lemma RenderConcat(a: seq<Violation>, b: seq<Violation>)
    ensures Render(a + b) == Render(a) + Render(b)
  {
    MapConcat(a, b, Message);
  }

  /** `getErrors`: runs every check in turn and records each failed one; the
      result is the messages of the failed checks, in that order. A missing army
      or list yields no messages. */
  method GetErrors(army: Option<ArmyState>, list: Option<ListState>, total: Unit -> nat) returns (errors: seq<string>)
    ensures army.None? || list.None? ==> errors == []
    ensures army.Some? && list.Some? ==> errors == Render(Violations(army.value, list.value, total))
  {
    if army.None? || list.None? {
      return [];
    }
    var a, l := army.value, list.value;
    var found: seq<Violation> := [];
    found := RecordCountChecks(found, l, a.gameSystem);
    found := RecordCopyAndCostChecks(found, l, a.gameSystem, total);
    found := RecordSystemChecks(found, l, a.gameSystem);
    found := RecordFactionChecks(found, a, l, total);
    errors := Render(found);
  }

  /** Points limit, hero count and unit count (ValidationService.ts:38-73). */
  method RecordCountChecks(found: seq<Violation>, l: ListState, system: string) returns (out: seq<Violation>)
    ensures out == CountChecks(found, l, system)
  {
    out := found;
    if l.pointsLimit > 0 && l.points > l.pointsLimit {
      out := out + [PointsLimitExceeded(l.points, l.pointsLimit)];
    }

    var points := EffectivePoints(l);
    var unitCount := |Filter(l.units, IsRoot)|;
    var heroCount := |Filter(l.units, IsHero)|;

    var heroThreshold := HeroPointThreshold(system);
    if heroThreshold.Some? && heroCount > points / heroThreshold.value {
      out := out + [TooManyHeroes(heroThreshold.value)];
    }

    var unitThreshold := UnitPointThreshold(system);
    if unitThreshold.Some? && unitCount > points / unitThreshold.value {
      out := out + [TooManyUnits(unitThreshold.value, system == "gf" || system == "aof" || system == "aofr")];
    }
  }

  /** Copies of one catalogue entry, and the 33% cap (ValidationService.ts:50-61, 75-79). */
  method RecordCopyAndCostChecks(found: seq<Violation>, l: ListState, system: string, total: Unit -> nat)
    returns (out: seq<Violation>)
    ensures out == CopyAndCostChecks(found, l, system, total)
  {
    out := found;
    var points := EffectivePoints(l);
    var duplicateUnitLimit := DuplicateUnitLimit(points, system);
    if duplicateUnitLimit.Some? {
      var unitsOverDuplicateLimit := NamesOverLimit(l.units, duplicateUnitLimit.value);
      if |unitsOverDuplicateLimit| > 0 {
        out := out + [TooManyCopies(duplicateUnitLimit.value, unitsOverDuplicateLimit)];
      }
    }

    var fullUnits := GetFullUnitList(l.units, false, total);
    if exists f :: f in fullUnits && OverThirdOfPoints(f, points) {
      out := out + [UnitTooExpensive];
    }
  }

  /** The battle-system, skirmish-system and Age of Fantasy: Skirmish checks
      (ValidationService.ts:90-129). */
  method RecordSystemChecks(found: seq<Violation>, l: ListState, system: string) returns (out: seq<Violation>)
    ensures out == SystemChecks(found, l, system)
  {
    out := found;
    var units := l.units;
    var points := EffectivePoints(l);
    var isBattleSystem := system == "gf" || system == "aof" || system == "aofr";
    var isSkirmishSystem := system == "gff" || system == "aofs";
    if isBattleSystem {
      out := RecordBattleChecks(out, units);
    } else if isSkirmishSystem {
      var modelCount := ModelCount(units);
      var modelLimit := points / 20;
      if modelCount > modelLimit {
        out := out + [TooManyModels(modelLimit, modelCount)];
      }
    }

    if system == "aofs" {
      if CommandUpgradeCarriers(units) > 1 {
        out := out + [CommandUpgradeLimit];
      }
    }
  }

  /** The four attachment checks of battle systems (ValidationService.ts:96-106). */
  method RecordBattleChecks(found: seq<Violation>, units: seq<Unit>) returns (out: seq<Violation>)
    ensures out == BattleChecks(found, units)
  {
    out := found;
    var joinedIds := JoinedIds(JoinedHeroes(units));
    if SomeCombinedSingle(units) {
      out := out + [CombinedSingleModel];
    }
    if SomeHeroJoinsSingle(units) {
      out := out + [HeroJoinsSingleModel];
    }
    if HasRepeat(joinedIds) {
      out := out + [TwoHeroesJoined];
    }
    if SomeHeroJoinsOtherFaction(units) {
      out := out + [HeroJoinsOtherFaction];
    }
  }

  /** The faction checks (ValidationService.ts:131-142). */
  method RecordFactionChecks(found: seq<Violation>, a: ArmyState, l: ListState, total: Unit -> nat)
    returns (out: seq<Violation>)
    ensures out == FactionChecks(found, a, l, total)
  {
    out := found;
    if |a.loadedArmyBooks| > 2 {
      out := out + [TooManyFactions];
    }

    var points := EffectivePoints(l);
    var pointsByArmy := PointsByArmy(l.units, total);
    if l.points > 0 && |a.loadedArmyBooks| > 1 && !(exists x :: x in pointsByArmy && ReachesSixtyPercent(x, points)) {
      out := out + [PrimaryFactionTooSmall];
    }
  }

  // ---------------------------------------------------------------------------
  // What the recorded violations mean
  // ---------------------------------------------------------------------------

  lemma CountChecksMembers(found: seq<Violation>, list: ListState, system: string, x: Violation)
    ensures x in CountChecks(found, list, system) <==> (x in found
      || (x == PointsLimitExceeded(list.points, list.pointsLimit) && list.pointsLimit > 0 && list.points > list.pointsLimit)
      || (x == TooManyHeroes(Entry(HeroPointThreshold(system))) && HeroTooMany(list, system))
      || (x == TooManyUnits(Entry(UnitPointThreshold(system)), IsBattleSystem(system)) && UnitsTooMany(list, system)))
  {
  }

  lemma CopyAndCostMembers(found: seq<Violation>, list: ListState, system: string, total: Unit -> nat, x: Violation)
    ensures var limit := Entry(DuplicateUnitLimit(EffectivePoints(list), system));
      x in CopyAndCostChecks(found, list, system, total) <==> (x in found
      || (x == TooManyCopies(limit, NamesOverLimit(list.units, limit)) && CopiesTooMany(list, system))
      || (x == UnitTooExpensive && SomeUnitTooExpensive(list, total)))
  {
  }

  lemma RecordMembers(found: seq<Violation>, failed: bool, v: Violation, x: Violation)
    ensures x in Record(found, failed, v) <==> x in found || (failed && x == v)
  {
  }

  lemma BattleChecksMembers(found: seq<Violation>, units: seq<Unit>, x: Violation)
    ensures x in BattleChecks(found, units) <==> (x in found
      || (x == CombinedSingleModel && SomeCombinedSingle(units))
      || (x == HeroJoinsSingleModel && SomeHeroJoinsSingle(units))
      || (x == TwoHeroesJoined && HasRepeat(JoinedIds(JoinedHeroes(units))))
      || (x == HeroJoinsOtherFaction && SomeHeroJoinsOtherFaction(units)))
  {
    var s1 := Record(found, SomeCombinedSingle(units), CombinedSingleModel);
    var s2 := Record(s1, SomeHeroJoinsSingle(units), HeroJoinsSingleModel);
    var s3 := Record(s2, HasRepeat(JoinedIds(JoinedHeroes(units))), TwoHeroesJoined);
    RecordMembers(found, SomeCombinedSingle(units), CombinedSingleModel, x);
    RecordMembers(s1, SomeHeroJoinsSingle(units), HeroJoinsSingleModel, x);
    RecordMembers(s2, HasRepeat(JoinedIds(JoinedHeroes(units))), TwoHeroesJoined, x);
    RecordMembers(s3, SomeHeroJoinsOtherFaction(units), HeroJoinsOtherFaction, x);
  }

  lemma SystemChecksMembers(found: seq<Violation>, list: ListState, system: string, x: Violation)
    ensures var points := EffectivePoints(list);
      x in SystemChecks(found, list, system) <==> (x in found
      || (x == CombinedSingleModel && IsBattleSystem(system) && SomeCombinedSingle(list.units))
      || (x == HeroJoinsSingleModel && IsBattleSystem(system) && SomeHeroJoinsSingle(list.units))
      || (x == TwoHeroesJoined && IsBattleSystem(system) && HasRepeat(JoinedIds(JoinedHeroes(list.units))))
      || (x == HeroJoinsOtherFaction && IsBattleSystem(system) && SomeHeroJoinsOtherFaction(list.units))
      || (x == TooManyModels(points / 20, ModelCount(list.units)) && IsSkirmishSystem(system) && ModelCount(list.units) > points / 20)
      || (x == CommandUpgradeLimit && system == "aofs" && CommandUpgradeCarriers(list.units) > 1))
  {
    var points := EffectivePoints(list);
    var s :=
      if IsBattleSystem(system) then BattleChecks(found, list.units)
      else if IsSkirmishSystem(system) then
        Record(found, ModelCount(list.units) > points / 20, TooManyModels(points / 20, ModelCount(list.units)))
      else found;
    if IsBattleSystem(system) {
      BattleChecksMembers(found, list.units, x);
    } else if IsSkirmishSystem(system) {
      RecordMembers(found, ModelCount(list.units) > points / 20, TooManyModels(points / 20, ModelCount(list.units)), x);
    }
    RecordMembers(s, system == "aofs" && CommandUpgradeCarriers(list.units) > 1, CommandUpgradeLimit, x);
  }

  lemma FactionChecksMembers(found: seq<Violation>, army: ArmyState, list: ListState, total: Unit -> nat, x: Violation)
    ensures x in FactionChecks(found, army, list, total) <==> (x in found
      || (x == TooManyFactions && |army.loadedArmyBooks| > 2)
      || (x == PrimaryFactionTooSmall && PrimaryTooSmall(army, list, total)))
  {
  }

  /** Each check's violation is among the results exactly when its condition
      holds: the checks do not short-circuit and no check records another's
      violation. */
  lemma ViolationsMembers(army: ArmyState, list: ListState, total: Unit -> nat, x: Violation)
    ensures var system := army.gameSystem;
      var points := EffectivePoints(list);
      var limit := Entry(DuplicateUnitLimit(points, system));
      x in Violations(army, list, total) <==> (
        (x == PointsLimitExceeded(list.points, list.pointsLimit) && list.pointsLimit > 0 && list.points > list.pointsLimit)
        || (x == TooManyHeroes(Entry(HeroPointThreshold(system))) && HeroTooMany(list, system))
        || (x == TooManyUnits(Entry(UnitPointThreshold(system)), IsBattleSystem(system)) && UnitsTooMany(list, system))
        || (x == TooManyCopies(limit, NamesOverLimit(list.units, limit)) && CopiesTooMany(list, system))
        || (x == UnitTooExpensive && SomeUnitTooExpensive(list, total))
        || (x == CombinedSingleModel && IsBattleSystem(system) && SomeCombinedSingle(list.units))
        || (x == HeroJoinsSingleModel && IsBattleSystem(system) && SomeHeroJoinsSingle(list.units))
        || (x == TwoHeroesJoined && IsBattleSystem(system) && HasRepeat(JoinedIds(JoinedHeroes(list.units))))
        || (x == HeroJoinsOtherFaction && IsBattleSystem(system) && SomeHeroJoinsOtherFaction(list.units))
        || (x == TooManyModels(points / 20, ModelCount(list.units)) && IsSkirmishSystem(system) && ModelCount(list.units) > points / 20)
        || (x == CommandUpgradeLimit && system == "aofs" && CommandUpgradeCarriers(list.units) > 1)
        || (x == TooManyFactions && |army.loadedArmyBooks| > 2)
        || (x == PrimaryFactionTooSmall && PrimaryTooSmall(army, list, total)))
  {
    var system := army.gameSystem;
    var s1 := CountChecks([], list, system);
    var s2 := CopyAndCostChecks(s1, list, system, total);
    var s3 := SystemChecks(s2, list, system);
    CountChecksMembers([], list, system, x);
    CopyAndCostMembers(s1, list, system, total, x);
    SystemChecksMembers(s2, list, system, x);
    FactionChecksMembers(s3, army, list, total, x);
  }

  /** Violations in strictly increasing check order: each message at most once. */
  predicate InCheckOrder(vs: seq<Violation>) {
    forall i, j :: 0 <= i < j < |vs| ==> Rank(vs[i]) < Rank(vs[j])
  }

  predicate RankedBelow(vs: seq<Violation>, k: nat) {
    forall i :: 0 <= i < |vs| ==> Rank(vs[i]) < k
  }

  lemma RecordInOrder(found: seq<Violation>, failed: bool, v: Violation)
    requires InCheckOrder(found) && RankedBelow(found, Rank(v))
    ensures InCheckOrder(Record(found, failed, v)) && RankedBelow(Record(found, failed, v), Rank(v) + 1)
  {
  }

  /** The messages come out in the order the checks run, none of them twice. */
  lemma {:induction false} ViolationsInCheckOrder(army: ArmyState, list: ListState, total: Unit -> nat)
    ensures InCheckOrder(Violations(army, list, total))
  {
    var system := army.gameSystem;
    var s1 := CountChecks([], list, system);
    CountChecksInOrder([], list, system);
    var s2 := CopyAndCostChecks(s1, list, system, total);
    CopyAndCostInOrder(s1, list, system, total);
    var s3 := SystemChecks(s2, list, system);
    SystemChecksInOrder(s2, list, system);
    FactionChecksInOrder(s3, army, list, total);
  }

  lemma CountChecksInOrder(found: seq<Violation>, list: ListState, system: string)
    requires InCheckOrder(found) && RankedBelow(found, 0)
    ensures InCheckOrder(CountChecks(found, list, system)) && RankedBelow(CountChecks(found, list, system), 3)
  {
    var c1 := list.pointsLimit > 0 && list.points > list.pointsLimit;
    var s1 := Record(found, c1, PointsLimitExceeded(list.points, list.pointsLimit));
    RecordInOrder(found, c1, PointsLimitExceeded(list.points, list.pointsLimit));
    var s2 := Record(s1, HeroTooMany(list, system), TooManyHeroes(Entry(HeroPointThreshold(system))));
    RecordInOrder(s1, HeroTooMany(list, system), TooManyHeroes(Entry(HeroPointThreshold(system))));
    RecordInOrder(s2, UnitsTooMany(list, system), TooManyUnits(Entry(UnitPointThreshold(system)), IsBattleSystem(system)));
  }

  lemma CopyAndCostInOrder(found: seq<Violation>, list: ListState, system: string, total: Unit -> nat)
    requires InCheckOrder(found) && RankedBelow(found, 3)
    ensures InCheckOrder(CopyAndCostChecks(found, list, system, total))
    ensures RankedBelow(CopyAndCostChecks(found, list, system, total), 5)
  {
    var limit := Entry(DuplicateUnitLimit(EffectivePoints(list), system));
    var s := Record(found, CopiesTooMany(list, system), TooManyCopies(limit, NamesOverLimit(list.units, limit)));
    RecordInOrder(found, CopiesTooMany(list, system), TooManyCopies(limit, NamesOverLimit(list.units, limit)));
    RecordInOrder(s, SomeUnitTooExpensive(list, total), UnitTooExpensive);
  }

  lemma BattleChecksInOrder(found: seq<Violation>, units: seq<Unit>)
    requires InCheckOrder(found) && RankedBelow(found, 5)
    ensures InCheckOrder(BattleChecks(found, units)) && RankedBelow(BattleChecks(found, units), 9)
  {
    BattleRecordsInOrder(found, SomeCombinedSingle(units), SomeHeroJoinsSingle(units),
                         HasRepeat(JoinedIds(JoinedHeroes(units))), SomeHeroJoinsOtherFaction(units));
  }

  lemma BattleRecordsInOrder(found: seq<Violation>, a: bool, b: bool, c: bool, d: bool)
    requires InCheckOrder(found) && RankedBelow(found, 5)
    ensures var s := Record(Record(Record(Record(found, a, CombinedSingleModel), b, HeroJoinsSingleModel), c, TwoHeroesJoined), d, HeroJoinsOtherFaction);
      InCheckOrder(s) && RankedBelow(s, 9)
  {
    var s1 := Record(found, a, CombinedSingleModel);
    RecordInOrder(found, a, CombinedSingleModel);
    var s2 := Record(s1, b, HeroJoinsSingleModel);
    RecordInOrder(s1, b, HeroJoinsSingleModel);
    var s3 := Record(s2, c, TwoHeroesJoined);
    RecordInOrder(s2, c, TwoHeroesJoined);
    RecordInOrder(s3, d, HeroJoinsOtherFaction);
  }

  lemma SystemChecksInOrder(found: seq<Violation>, list: ListState, system: string)
    requires InCheckOrder(found) && RankedBelow(found, 5)
    ensures InCheckOrder(SystemChecks(found, list, system)) && RankedBelow(SystemChecks(found, list, system), 11)
  {
    var units := list.units;
    var points := EffectivePoints(list);
    BattleChecksInOrder(found, units);
    SystemRecordsInOrder(found, BattleChecks(found, units), IsBattleSystem(system), IsSkirmishSystem(system),
                         points / 20, ModelCount(units), system == "aofs" && CommandUpgradeCarriers(units) > 1);
  }

  lemma SystemRecordsInOrder(found: seq<Violation>, battle: seq<Violation>, isBattle: bool, isSkirmish: bool,
                             limit: nat, count: nat, command: bool)
    requires InCheckOrder(found) && RankedBelow(found, 5)
    requires InCheckOrder(battle) && RankedBelow(battle, 9)
    ensures var s := if isBattle then battle else if isSkirmish then Record(found, count > limit, TooManyModels(limit, count)) else found;
      InCheckOrder(Record(s, command, CommandUpgradeLimit)) && RankedBelow(Record(s, command, CommandUpgradeLimit), 11)
  {
    var s := if isBattle then battle else if isSkirmish then Record(found, count > limit, TooManyModels(limit, count)) else found;
    if !isBattle && isSkirmish {
      RecordInOrder(found, count > limit, TooManyModels(limit, count));
    }
    RecordInOrder(s, command, CommandUpgradeLimit);
  }

  lemma FactionChecksInOrder(found: seq<Violation>, army: ArmyState, list: ListState, total: Unit -> nat)
    requires InCheckOrder(found) && RankedBelow(found, 11)
    ensures InCheckOrder(FactionChecks(found, army, list, total))
  {
    var s := Record(found, |army.loadedArmyBooks| > 2, TooManyFactions);
    RecordInOrder(found, |army.loadedArmyBooks| > 2, TooManyFactions);
    RecordInOrder(s, PrimaryTooSmall(army, list, total), PrimaryFactionTooSmall);
  }

  /** An id is reported exactly when it is among the ids scanned and has more
      counted copies than the limit. */
  lemma {:induction false} IdsOverLimitMembers(counted: seq<Unit>, ids: seq<string>, limit: nat, id: string)
    ensures id in IdsOverLimit(counted, ids, limit) <==> id in ids && |Bucket(counted, UnitId, id)| > limit
  {
    if |ids| > 0 {
      IdsOverLimitMembers(counted, ids[..|ids| - 1], limit, id);
      assert ids == ids[..|ids| - 1] + [ids[|ids| - 1]];
    }
  }

  /** Some catalogue id is over the limit exactly when some counted unit shares
      its id with more than `limit` counted units. */
  lemma OverLimitExists(counted: seq<Unit>, limit: nat)
    ensures |IdsOverLimit(counted, KeyOrder(counted, UnitId), limit)| > 0 <==>
      exists u :: u in counted && |Bucket(counted, UnitId, u.id)| > limit
  {
    var ks := KeyOrder(counted, UnitId);
    var over := IdsOverLimit(counted, ks, limit);
    KeyOrderProperties(counted, UnitId);
    if |over| > 0 {
      IdsOverLimitMembers(counted, ks, limit, over[0]);
      var i :| 0 <= i < |counted| && UnitId(counted[i]) == over[0];
      assert counted[i] in counted;
    }
    if exists u :: u in counted && |Bucket(counted, UnitId, u.id)| > limit {
      var u :| u in counted && |Bucket(counted, UnitId, u.id)| > limit;
      var i :| 0 <= i < |counted| && counted[i] == u;
      assert HasKey(counted, UnitId, u.id);
      IdsOverLimitMembers(counted, ks, limit, u.id);
    }
  }

  /** The copy check fires exactly when, for a system in the table, some unit
      that counts as a copy shares its catalogue id with more than
      `1 + points / threshold` counted units. */
  lemma CopiesTooManyMeans(list: ListState, system: string)
    ensures var counted := Filter(list.units, CountsAsCopy);
      CopiesTooMany(list, system) <==>
        DuplicateUnitThreshold(system).Some?
        && exists u :: u in counted && |Bucket(counted, UnitId, u.id)| > 1 + EffectivePoints(list) / DuplicateUnitThreshold(system).value
  {
    var limit := DuplicateUnitLimit(EffectivePoints(list), system);
    if limit.Some? {
      OverLimitExists(Filter(list.units, CountsAsCopy), limit.value);
    }
  }

  /** A list made of copies of one unit that counts as a copy trips the copy
      check exactly when it holds more copies than the limit. */
  lemma CopiesOfOneUnit(list: ListState, system: string, u: Unit)
    requires CountsAsCopy(u) && forall i :: 0 <= i < |list.units| ==> list.units[i] == u
    ensures var limit := DuplicateUnitLimit(EffectivePoints(list), system);
      CopiesTooMany(list, system) <==> limit.Some? && |list.units| > limit.value
  {
    CopiesTooManyMeans(list, system);
    FilterKeepsAll(list.units, CountsAsCopy);
    BucketKeepsAll(list.units, UnitId, u.id);
    if |list.units| > 0 {
      assert list.units[0] in list.units;
    }
  }

  /** Grimdark Future at 2000 points allows 3 copies of a unit: three stay
      within the limit and a fourth one trips the copy check. */
  lemma CopyLimitAtTwoThousand(u: Unit)
    requires CountsAsCopy(u)
    ensures DuplicateUnitLimit(2000, "gf") == Some(3)
    ensures !CopiesTooMany(ListState("", 2000, 0, "", "gf", false, false, [u, u, u]), "gf")
    ensures CopiesTooMany(ListState("", 2000, 0, "", "gf", false, false, [u, u, u, u]), "gf")
  {
    CopiesOfOneUnit(ListState("", 2000, 0, "", "gf", false, false, [u, u, u]), "gf", u);
    CopiesOfOneUnit(ListState("", 2000, 0, "", "gf", false, false, [u, u, u, u]), "gf", u);
  }

  /** A hero id is joined when the hero points at a unit of the list. */
  lemma JoinedIdsMembers(units: seq<Unit>, id: string)
    ensures id in JoinedIds(JoinedHeroes(units)) <==>
      exists h :: h in units && IsHero(h) && h.joinToUnit == Some(id) && HasSelectionId(units, id)
  {
    if id in JoinedIds(JoinedHeroes(units)) {
      JoinedIdHasHero(units, id);
    }
    if exists h :: h in units && IsHero(h) && h.joinToUnit == Some(id) && HasSelectionId(units, id) {
      var h :| h in units && IsHero(h) && h.joinToUnit == Some(id) && HasSelectionId(units, id);
      JoinedHeroGivesId(units, h);
    }
  }

  lemma JoinedIdHasHero(units: seq<Unit>, id: string)
    requires id in JoinedIds(JoinedHeroes(units))
    ensures exists h :: h in units && IsHero(h) && h.joinToUnit == Some(id) && HasSelectionId(units, id)
  {
    var js := JoinedHeroes(units);
    var ids := JoinedIds(js);
    var i :| 0 <= i < |ids| && ids[i] == id;
    assert js[i] in js;
    FilterMembership(Filter(units, IsHero), JoinsExisting(units), js[i]);
    FilterMembership(units, IsHero, js[i]);
  }

  lemma JoinedHeroGivesId(units: seq<Unit>, h: Unit)
    requires h in units && IsHero(h) && h.joinToUnit.Some? && HasSelectionId(units, h.joinToUnit.value)
    ensures h.joinToUnit.value in JoinedIds(JoinedHeroes(units))
  {
    var js := JoinedHeroes(units);
    FilterMembership(units, IsHero, h);
    FilterMembership(Filter(units, IsHero), JoinsExisting(units), h);
    var i :| 0 <= i < |js| && js[i] == h;
    assert JoinedIds(js)[i] == h.joinToUnit.value;
  }

  /** The single-model join check fires exactly when a hero of the list is
      joined to a unit of size 1 of the list. */
  lemma HeroJoinsSingleMeans(units: seq<Unit>)
    ensures SomeHeroJoinsSingle(units) <==>
      exists h, t :: h in units && t in units && IsHero(h) && h.joinToUnit == Some(t.selectionId) && t.size == 1
  {
    if SomeHeroJoinsSingle(units) {
      var t :| t in units && t.size == 1 && t.selectionId in JoinedIds(JoinedHeroes(units));
      JoinedIdsMembers(units, t.selectionId);
    }
    if exists h, t :: h in units && t in units && IsHero(h) && h.joinToUnit == Some(t.selectionId) && t.size == 1 {
      var h, t :| h in units && t in units && IsHero(h) && h.joinToUnit == Some(t.selectionId) && t.size == 1;
      JoinedIdsMembers(units, t.selectionId);
    }
  }

  function JoinTarget(u: Unit): Option<string> { u.joinToUnit }

  /** The repeated-join check fires exactly when two different heroes of the
      list are joined to the same unit of the list. */
  lemma TwoHeroesJoinedMeans(units: seq<Unit>)
    ensures HasRepeat(JoinedIds(JoinedHeroes(units))) <==>
      exists i, j :: 0 <= i < j < |units| && IsHero(units[i]) && IsHero(units[j])
        && JoinsExisting(units)(units[i]) && units[i].joinToUnit == units[j].joinToUnit
  {
    var heroes := Filter(units, IsHero);
    var je := JoinsExisting(units);
    var js := JoinedHeroes(units);
    forall k | 0 <= k < |js| ensures je(js[k]) && js[k].joinToUnit.Some? {
      assert js[k] in js;
    }
    JoinedIdsRepeat(js, je);
    FilterRepeated(heroes, je, je, JoinTarget);
    assert RepeatedAmongBoth(heroes, je, je, JoinTarget) <==> RepeatedAmong(heroes, je, JoinTarget);
    FilterRepeated(units, IsHero, je, JoinTarget);
  }

  lemma JoinedIdsRepeat(js: seq<Unit>, q: Unit -> bool)
    requires forall k :: 0 <= k < |js| ==> q(js[k]) && js[k].joinToUnit.Some?
    ensures HasRepeat(JoinedIds(js)) <==> RepeatedAmong(js, q, JoinTarget)
  {
    var ids := JoinedIds(js);
    if HasRepeat(ids) {
      var i, j :| 0 <= i < j < |ids| && ids[i] == ids[j];
      assert JoinTarget(js[i]) == JoinTarget(js[j]);
    }
    if RepeatedAmong(js, q, JoinTarget) {
      var i, j :| 0 <= i < j < |js| && q(js[i]) && q(js[j]) && JoinTarget(js[i]) == JoinTarget(js[j]);
      assert ids[i] == ids[j];
    }
  }

  /** The faction check fires exactly when a hero of the list is joined to a
      unit whose first occurrence in the list belongs to another army. */
  lemma HeroJoinsOtherFactionMeans(units: seq<Unit>)
    ensures SomeHeroJoinsOtherFaction(units) <==>
      exists h, t :: h in units && IsHero(h) && h.joinToUnit.Some?
        && FindBySelectionId(units, h.joinToUnit.value) == Some(t) && t.armyId != h.armyId
  {
    if SomeHeroJoinsOtherFaction(units) {
      OtherFactionWitness(units);
    }
    if exists h, t :: h in units && IsHero(h) && h.joinToUnit.Some?
        && FindBySelectionId(units, h.joinToUnit.value) == Some(t) && t.armyId != h.armyId {
      var h, t :| h in units && IsHero(h) && h.joinToUnit.Some?
        && FindBySelectionId(units, h.joinToUnit.value) == Some(t) && t.armyId != h.armyId;
      OtherFactionFromWitness(units, h, t);
    }
  }

  lemma OtherFactionWitness(units: seq<Unit>)
    requires SomeHeroJoinsOtherFaction(units)
    ensures exists h, t ::
              && h in units && IsHero(h) && h.joinToUnit.Some?
              && FindBySelectionId(units, h.joinToUnit.value) == Some(t) && t.armyId != h.armyId
  {
    var h :| h in JoinedHeroes(units) && JoinsOtherFaction(units, h);
    JoinedHeroIsHero(units, h);
    var t := FindBySelectionId(units, h.joinToUnit.value).value;
    assert FindBySelectionId(units, h.joinToUnit.value) == Some(t) && t.armyId != h.armyId;
  }

  lemma OtherFactionFromWitness(units: seq<Unit>, h: Unit, t: Unit)
    requires h in units && IsHero(h) && h.joinToUnit.Some?
    requires FindBySelectionId(units, h.joinToUnit.value) == Some(t) && t.armyId != h.armyId
    ensures SomeHeroJoinsOtherFaction(units)
  {
    assert HasSelectionId(units, h.joinToUnit.value);
    HeroIsJoined(units, h);
    assert JoinsOtherFaction(units, h);
  }

  lemma JoinedHeroIsHero(units: seq<Unit>, h: Unit)
    requires h in JoinedHeroes(units)
    ensures h in units && IsHero(h) && h.joinToUnit.Some?
  {
    FilterMembership(Filter(units, IsHero), JoinsExisting(units), h);
    FilterMembership(units, IsHero, h);
  }

  lemma HeroIsJoined(units: seq<Unit>, h: Unit)
    requires h in units && IsHero(h) && h.joinToUnit.Some? && HasSelectionId(units, h.joinToUnit.value)
    ensures h in JoinedHeroes(units)
  {
    FilterMembership(units, IsHero, h);
    FilterMembership(Filter(units, IsHero), JoinsExisting(units), h);
  }

  /** Each army's entry is the summed price of that army's units. */
  lemma PointsByArmyMembers(units: seq<Unit>, total: Unit -> nat, x: nat)
    ensures x in PointsByArmy(units, total) <==>
      exists id :: HasKey(units, ArmyIdOf, id) && x == SumTotals(Bucket(units, ArmyIdOf, id), total)
  {
    var ks := KeyOrder(units, ArmyIdOf);
    var r := PointsByArmy(units, total);
    KeyOrderProperties(units, ArmyIdOf);
    if x in r {
      var j :| 0 <= j < |r| && r[j] == x;
      assert ks[j] in ks;
    }
    if exists id :: HasKey(units, ArmyIdOf, id) && x == SumTotals(Bucket(units, ArmyIdOf, id), total) {
      var id :| HasKey(units, ArmyIdOf, id) && x == SumTotals(Bucket(units, ArmyIdOf, id), total);
      var j :| 0 <= j < |ks| && ks[j] == id;
      assert r[j] == x;
    }
  }

  /** Battle-system checks and the skirmish model count never both report. */
  lemma BattleAndSkirmishExclusive(army: ArmyState, list: ListState, total: Unit -> nat, x: Violation, y: Violation)
    requires x in Violations(army, list, total) && y in Violations(army, list, total)
    requires x.CombinedSingleModel? || x.HeroJoinsSingleModel? || x.TwoHeroesJoined? || x.HeroJoinsOtherFaction?
    ensures !y.TooManyModels?
  {
    BattleOnlyChecks(army, list, total, x);
    ModelCountSkirmishOnly(army, list, total, y);
  }

  lemma BattleOnlyChecks(army: ArmyState, list: ListState, total: Unit -> nat, x: Violation)
    requires x in Violations(army, list, total)
    requires x.CombinedSingleModel? || x.HeroJoinsSingleModel? || x.TwoHeroesJoined? || x.HeroJoinsOtherFaction?
    ensures IsBattleSystem(army.gameSystem)
  {
    ViolationsMembers(army, list, total, x);
  }

  lemma ModelCountSkirmishOnly(army: ArmyState, list: ListState, total: Unit -> nat, y: Violation)
    requires y in Violations(army, list, total)
    ensures y.TooManyModels? ==> IsSkirmishSystem(army.gameSystem)
  {
    ViolationsMembers(army, list, total, y);
  }
}
