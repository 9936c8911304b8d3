/** The derived values of the upgrade panel (views/upgrades/Upgrades.tsx):
    whether the list is a skirmish and the unit a hero, the order of its
    upgrade packages, which sections are offered, which units a hero may join
    and when the combine and join controls are shown. */
module UpgradesView {
  import opened Basics
  import opened Helpers
  import opened Army
  import opened Units
  import opened Validation

  /** `gameSystem !== "gf" && gameSystem !== "aof" && gameSystem !== "aofr"`:
      every system without the battle-size checks counts as a skirmish. */
  function IsSkirmish(gameSystem: string): (r: bool)
    ensures r <==> !IsBattleSystem(gameSystem)
    ensures IsSkirmishSystem(gameSystem) ==> r
  {
    gameSystem != "gf" && gameSystem != "aof" && gameSystem != "aofr"
  }

  /** `rules.findIndex(sr => sr.name === name)`: the first position, or -1. */
  function FindRuleIndex(rules: seq<Rule>, name: string): (r: int)
    ensures -1 <= r < |rules|
    ensures r >= 0 ==> rules[r].name == name && forall i :: 0 <= i < r ==> rules[i].name != name
    ensures r == -1 ==> forall i :: 0 <= i < |rules| ==> rules[i].name != name
  {
    if |rules| == 0 then -1
    else if rules[0].name == name then 0
    else
      var r := FindRuleIndex(rules[1..], name);
      if r == -1 then -1 else r + 1
  }

  /** `isHero`: a selected unit whose rules include "Hero". */
  function SelectedIsHero(selected: Option<Unit>): (r: bool)
    ensures r <==> selected.Some? && IsHero(selected.value)
  {
    match selected
    case None => false
    case Some(u) => FindRuleIndex(u.specialRules, "Hero") > -1
  }

  // ---------------------------------------------------------------------------
  // Package order
  // ---------------------------------------------------------------------------

  /** `upgradeSets`: a hero keeps its packages in catalogue order; any other
      unit shows its first package last. */
  function UpgradeSets(original: seq<Package>, isHero: bool): (r: seq<Package>)
    ensures multiset(r) == multiset(original)
  {
    if isHero || |original| == 0 then original
    else
      assert original == [original[0]] + original[1..];
      original[1..] + [original[0]]
  }

  /** For a non-hero the packages are rotated by one place: position `i` shows
      package `i + 1`, the last shows the first; nothing is lost or added. */
  lemma UpgradeSetsOrder(original: seq<Package>, isHero: bool)
    ensures isHero ==> UpgradeSets(original, isHero) == original
    ensures |UpgradeSets(original, isHero)| == |original|
    ensures !isHero ==> forall i :: 0 <= i < |original| ==> UpgradeSets(original, isHero)[i] == original[(i + 1) % |original|]
    ensures multiset(UpgradeSets(original, isHero)) == multiset(original)
  {
    if !isHero && |original| > 0 {
      var r := UpgradeSets(original, isHero);
      forall i | 0 <= i < |original| ensures r[i] == original[(i + 1) % |original|] {
        if i < |original| - 1 {
          assert (i + 1) % |original| == i + 1;
        } else {
          assert (i + 1) % |original| == 0;
        }
      }
      assert original == [original[0]] + original[1..];
    }
  }

  // ---------------------------------------------------------------------------
  // Offered sections
  // ---------------------------------------------------------------------------

  function NotDisabled(disabled: seq<string>): Section -> bool
  {
    (s: Section) => s.uid !in disabled
  }

  predicate IsHeroSection(s: Section) { s.isHeroUpgrade }

  predicate IsMainSection(s: Section) { !s.isHeroUpgrade }

  /** `allSections`: every section of the packages that is not disabled. */
  function AllSections(upgradeSets: seq<Package>, disabled: seq<string>): seq<Section>
  {
    Filter(SectionsOf(upgradeSets), NotDisabled(disabled))
  }

  /** The sections in the order they are shown: hero upgrades, then the rest. */
  function ShownSections(upgradeSets: seq<Package>, disabled: seq<string>): (r: seq<Section>)
    ensures forall s :: s in r ==> s in SectionsOf(upgradeSets) && s.uid !in disabled
  {
    var all := AllSections(upgradeSets, disabled);
    Filter(all, IsHeroSection) + Filter(all, IsMainSection)
  }

  /** A section is shown exactly when it belongs to the packages and is not
      disabled; the shown sections are the offered ones, rearranged. */
  lemma ShownSectionsMembership(upgradeSets: seq<Package>, disabled: seq<string>, s: Section)
    ensures s in ShownSections(upgradeSets, disabled) <==> s in SectionsOf(upgradeSets) && s.uid !in disabled
    ensures multiset(ShownSections(upgradeSets, disabled)) == multiset(AllSections(upgradeSets, disabled))
  {
    var all := AllSections(upgradeSets, disabled);
    FilterMembership(SectionsOf(upgradeSets), NotDisabled(disabled), s);
    FilterMembership(all, IsHeroSection, s);
    FilterMembership(all, IsMainSection, s);
    FilterPartition(all, IsHeroSection, IsMainSection);
  }

  /** Hero-upgrade sections come before every other section, and each part
      keeps the packages' order. */
  lemma ShownSectionsOrder(upgradeSets: seq<Package>, disabled: seq<string>)
    ensures var shown := ShownSections(upgradeSets, disabled);
      forall i, j :: 0 <= i < j < |shown| && !shown[i].isHeroUpgrade ==> !shown[j].isHeroUpgrade
    ensures IsSubsequence(Filter(AllSections(upgradeSets, disabled), IsHeroSection), AllSections(upgradeSets, disabled))
    ensures IsSubsequence(Filter(AllSections(upgradeSets, disabled), IsMainSection), AllSections(upgradeSets, disabled))
  {
    var all := AllSections(upgradeSets, disabled);
    var heroes, main := Filter(all, IsHeroSection), Filter(all, IsMainSection);
    var shown := heroes + main;
    forall k | 0 <= k < |shown|
      ensures k < |heroes| ==> shown[k].isHeroUpgrade
      ensures k >= |heroes| ==> !shown[k].isHeroUpgrade
    {
      if k < |heroes| {
        assert shown[k] in heroes;
      } else {
        assert shown[k] in main;
      }
    }
    FilterIsSubsequence(all, IsHeroSection);
    FilterIsSubsequence(all, IsMainSection);
  }

  // ---------------------------------------------------------------------------
  // Joining and combining
  // ---------------------------------------------------------------------------

  /** `unitsWithAttachedHeroes`: the join targets of joined heroes, in list order. */
  function UnitsWithAttachedHeroes(units: seq<Unit>): seq<string>
  {
    if |units| == 0 then []
    else
      var u := units[|units| - 1];
      UnitsWithAttachedHeroes(units[..|units| - 1]) + (if IsHero(u) && u.joinToUnit.Some? then [u.joinToUnit.value] else [])
  }

  lemma {:induction false} UnitsWithAttachedHeroesMembership(units: seq<Unit>, id: string)
    ensures id in UnitsWithAttachedHeroes(units) <==> exists u :: u in units && IsHero(u) && u.joinToUnit == Some(id)
  {
    if |units| > 0 {
      var init, last := units[..|units| - 1], units[|units| - 1];
      UnitsWithAttachedHeroesMembership(init, id);
      assert units == init + [last];
      if exists u :: u in units && IsHero(u) && u.joinToUnit == Some(id) {
        var u :| u in units && IsHero(u) && u.joinToUnit == Some(id);
        if u != last {
          assert u in init;
        }
      }
    }
  }

  /** The first filter: a root unit, of more than one model in competitive play. */
  function CanBeJoined(competitive: bool): Unit -> bool
  {
    (u: Unit) => (!competitive || u.size > 1) && u.joinToUnit.None?
  }

  /** The second filter: `u.armyId === selectedUnit?.armyId`. */
  function SameArmy(selected: Option<Unit>): Unit -> bool
  {
    (u: Unit) => selected.Some? && u.armyId == selected.value.armyId
  }

  /** The third filter: in competitive play a unit that already has a hero is
      only offered when it is the current target. */
  function NotTaken(competitive: bool, attached: seq<string>, selected: Option<Unit>): Unit -> bool
  {
    (u: Unit) => !competitive || u.selectionId !in attached || (selected.Some? && selected.value.joinToUnit == Some(u.selectionId))
  }

  /** `joinCandidates`. */
  function JoinCandidates(units: seq<Unit>, competitive: bool, selected: Option<Unit>): (r: seq<Unit>)
    ensures forall u :: u in r ==> u in units && u.joinToUnit.None?
  {
    Filter(Filter(Filter(units, CanBeJoined(competitive)), SameArmy(selected)),
           NotTaken(competitive, UnitsWithAttachedHeroes(units), selected))
  }

  /** The menu entries: the candidates other than the selected unit. */
  function JoinMenu(units: seq<Unit>, competitive: bool, selected: Option<Unit>): seq<Unit>
  {
    Filter(JoinCandidates(units, competitive, selected), (u: Unit) => selected.None? || u != selected.value)
  }

  /** A unit is a candidate exactly when it is a root unit of the selected
      unit's army and, in competitive play, has more than one model and no hero
      attached unless it is the current target; candidates keep list order. */
  lemma JoinCandidatesMeans(units: seq<Unit>, competitive: bool, selected: Option<Unit>, u: Unit)
    ensures u in JoinCandidates(units, competitive, selected) <==>
      (&& u in units && u.joinToUnit.None? && selected.Some? && u.armyId == selected.value.armyId
       && (competitive ==> u.size > 1)
       && (competitive ==> (!exists h :: h in units && IsHero(h) && h.joinToUnit == Some(u.selectionId))
                           || selected.value.joinToUnit == Some(u.selectionId)))
    ensures IsSubsequence(JoinCandidates(units, competitive, selected), units)
  {
    var a := Filter(units, CanBeJoined(competitive));
    var b := Filter(a, SameArmy(selected));
    FilterMembership(units, CanBeJoined(competitive), u);
    FilterMembership(a, SameArmy(selected), u);
    FilterMembership(b, NotTaken(competitive, UnitsWithAttachedHeroes(units), selected), u);
    UnitsWithAttachedHeroesMembership(units, u.selectionId);
    FilterIsSubsequence(units, CanBeJoined(competitive));
    FilterIsSubsequence(a, SameArmy(selected));
    FilterIsSubsequence(b, NotTaken(competitive, UnitsWithAttachedHeroes(units), selected));
    SubsequenceTransitive(JoinCandidates(units, competitive, selected), b, a);
    SubsequenceTransitive(JoinCandidates(units, competitive, selected), a, units);
  }

  /** The selected unit is never offered as its own join target. */
  lemma JoinMenuExcludesSelected(units: seq<Unit>, competitive: bool, selected: Unit)
    ensures selected !in JoinMenu(units, competitive, Some(selected))
  {
    var p := (u: Unit) => Some(selected).None? || u != Some(selected).value;
    FilterMembership(JoinCandidates(units, competitive, Some(selected)), p, selected);
  }

  /** `combineUnitControl`: outside preview, for non-heroes outside skirmish
      systems, and in competitive play only for units of more than one model. */
  predicate CombineControlShown(previewMode: bool, competitive: bool, gameSystem: string, u: Unit): (r: bool)
    ensures r ==> !previewMode && IsBattleSystem(gameSystem) && !SelectedIsHero(Some(u))
  {
    !previewMode && (!competitive || u.size > 1) && !SelectedIsHero(Some(u)) && !IsSkirmish(gameSystem)
  }

  /** `joinToUnitControl`: outside preview, for heroes outside skirmish systems,
      and in competitive play only up to toughness 6. */
  predicate JoinControlShown(previewMode: bool, competitive: bool, gameSystem: string, u: Unit): (r: bool)
    ensures r ==> !previewMode && IsBattleSystem(gameSystem) && SelectedIsHero(Some(u))
  {
    !previewMode && !IsSkirmish(gameSystem) && (!competitive || GetTough(u) <= 6) && SelectedIsHero(Some(u))
  }

  /** A unit never shows both controls, and neither shows in a skirmish system
      or in preview. */
  lemma ControlsExclusive(previewMode: bool, competitive: bool, gameSystem: string, u: Unit)
    ensures !(CombineControlShown(previewMode, competitive, gameSystem, u) && JoinControlShown(previewMode, competitive, gameSystem, u))
    ensures (previewMode || !IsBattleSystem(gameSystem)) ==>
      !CombineControlShown(previewMode, competitive, gameSystem, u) && !JoinControlShown(previewMode, competitive, gameSystem, u)
    ensures CombineControlShown(previewMode, competitive, gameSystem, u) || JoinControlShown(previewMode, competitive, gameSystem, u) ==>
      IsBattleSystem(gameSystem)
  {
  }
}
