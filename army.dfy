/** The records the army-list engine works on: catalogue entries (army books,
    upgrade packages, sections, options and the gains they grant), selected
    units and the list itself. Field names follow the ones the services read. */
module Army {
  import opened Basics

  /** A rule's rating as `parseInt` sees it: absent, a number, or the `NaN`
      that arithmetic over an absent rating produces. */
  datatype Rating = Unrated | Rated(n: int) | NotANumber

  /** A special rule: `Tough(3)`, `Defense +1`, `Fear`, with an optional condition text
      (the empty string stands for no condition). */
  datatype Rule = Rule(name: string, rating: Rating, modifier: bool, condition: string)

  /** What a piece of equipment or an upgrade option grants, tagged by kind
      ("ArmyBookWeapon", "ArmyBookItem", "ArmyBookRule", "ArmyBookDefense").
      A count of 0 stands for a count the record does not carry. */
  datatype Gain =
    | Weapon(id: string, name: string, labelText: Option<string>, count: nat,
             range: nat, attacks: nat, specialRules: seq<Rule>)
    | Item(id: string, name: string, labelText: Option<string>, count: nat,
           isModel: bool, content: seq<Gain>)
    | RuleGain(id: string, name: string, labelText: Option<string>, count: nat,
               rating: Rating, modifier: bool, condition: string)
    | DefenseGain(id: string, name: string, labelText: Option<string>, count: nat,
                  rating: Rating, modifier: bool, condition: string)

  predicate IsRuleOrDefense(g: Gain) {
    g.RuleGain? || g.DefenseGain?
  }

  /** The special rule a rule or defense gain stands for. */
  function ToRule(g: Gain): (r: Rule)
    requires IsRuleOrDefense(g)
    ensures r.name == g.name && r.rating == g.rating
  {
    Rule(g.name, g.rating, g.modifier, g.condition)
  }

  datatype SectionType = Replace | Upgrade | UpgradeRule
  datatype Affects = AffectsAny | AffectsOne | AffectsAll
  datatype Select = SelectAny | SelectOne

  /** One selectable choice of an upgrade section. The `proposed*` and
      `parent*Uid` fields are server-side fields that normalisation strips. */
  datatype UpgradeOption = UpgradeOption(
    id: string,
    labelText: string,
    cost: int,
    gains: seq<Gain>,
    isModel: bool,
    parentSectionId: Option<string>,
    proposedCost: Option<int>,
    proposedCostHint: Option<string>,
    proposedVersion: Option<string>,
    parentPackageUid: Option<string>,
    parentSectionUid: Option<string>)

  /** One upgrade slot of a unit. */
  datatype Section = Section(
    uid: string,
    labelText: string,
    sectionType: SectionType,
    affects: Affects,
    select: Select,
    replaceWhat: Option<seq<string>>,
    isHeroUpgrade: bool,
    isCommandGroup: bool,
    options: seq<UpgradeOption>)

  datatype Package = Package(uid: string, sections: seq<Section>)

  /** An applied choice: the section, the option and a unique instance id. */
  datatype SelectedUpgrade = SelectedUpgrade(instanceId: string, upgrade: Section, option: UpgradeOption)

  /** A unit: a catalogue entry, or a selected instance of one in a list (the
      source spreads the catalogue entry into the selected unit, so both share
      one shape). */
  datatype Unit = Unit(
    id: string,
    selectionId: string,
    armyId: string,
    name: string,
    customName: Option<string>,
    size: nat,
    cost: int,
    quality: nat,
    defense: nat,
    sortId: int,
    specialRules: seq<Rule>,
    equipment: seq<Gain>,
    upgrades: seq<string>,
    disabledUpgradeSections: seq<string>,
    selectedUpgrades: seq<SelectedUpgrade>,
    loadout: seq<Gain>,
    combined: bool,
    joinToUnit: Option<string>,
    xp: nat,
    traits: seq<string>,
    notes: Option<string>)

  /** A faction's catalogue. */
  datatype ArmyBook = ArmyBook(
    uid: string,
    name: string,
    factionName: string,
    units: seq<Unit>,
    upgradePackages: seq<Package>,
    specialRules: seq<Rule>)

  /** The army list being built; a points limit of 0 means no limit. */
  datatype ListState = ListState(
    name: string,
    pointsLimit: nat,
    points: nat,
    creationTime: string,
    gameSystem: string,
    campaignMode: bool,
    competitive: bool,
    units: seq<Unit>)

  /** The loaded catalogues and the game system they belong to. */
  datatype ArmyState = ArmyState(gameSystem: string, loadedArmyBooks: seq<ArmyBook>)

  predicate HasRuleNamed(rules: seq<Rule>, name: string) {
    exists i :: 0 <= i < |rules| && rules[i].name == name
  }

  /** `u.specialRules.some(r => r.name === "Hero")`. */
  predicate IsHero(u: Unit) {
    HasRuleNamed(u.specialRules, "Hero")
  }

  predicate IsNotHero(u: Unit) {
    !IsHero(u)
  }

  /** A unit that is not attached to another one. */
  predicate IsRoot(u: Unit) {
    u.joinToUnit.None?
  }

  /** `units.find(u => u.id === id)`: the first unit with catalogue id `id`. */
  function FindById(units: seq<Unit>, id: string): (r: Option<Unit>)
    ensures r.Some? ==> r.value in units && r.value.id == id
    ensures r.None? ==> forall u :: u in units ==> u.id != id
    ensures r.Some? ==> exists i :: 0 <= i < |units| && units[i] == r.value && forall j :: 0 <= j < i ==> units[j].id != id
  {
    if |units| == 0 then None
    else if units[0].id == id then Some(units[0])
    else FindById(units[1..], id)
  }
}
