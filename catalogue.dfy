/** Normalisation of a downloaded army book (`transformArmyBookData`,
    services/WebappApiService.ts:88-124): options learn their section,
    server-side fields are dropped, command-group sections are flagged, and
    units are stamped with their list position, their army and the sections
    their equipment cannot use. */
module Catalogue {
  import opened Basics
  import opened Helpers
  import opened Army
  import opened Units

  // ---------------------------------------------------------------------------
  // Command groups
  // ---------------------------------------------------------------------------

  /** `toLocaleLowerCase` on one character; only ASCII letters change. */
  function LowerChar(c: char): char
  {
    if 'A' <= c <= 'Z' then (c as int + 32) as char else c
  }

  function Lower(s: string): string
  {
    seq(|s|, i requires 0 <= i < |s| => LowerChar(s[i]))
  }

  predicate IsMusician(g: Gain)
  {
    Lower(g.name) == "musician"
  }

  /** `gains.some(g => g.name.toLocaleLowerCase() === "musician")`. */
  function SomeGainIsMusician(gains: seq<Gain>): bool
  {
    |gains| > 0 && (IsMusician(gains[0]) || SomeGainIsMusician(gains[1..]))
  }

  /** `options.some(opt => opt.gains.some(...))`. */
  function SomeOptionHasMusician(options: seq<UpgradeOption>): bool
  {
    |options| > 0 && (SomeGainIsMusician(options[0].gains) || SomeOptionHasMusician(options[1..]))
  }

  lemma {:induction false} SomeGainIsMusicianMeans(gains: seq<Gain>)
    ensures SomeGainIsMusician(gains) <==> exists j :: 0 <= j < |gains| && IsMusician(gains[j])
  {
    if |gains| > 0 {
      SomeGainIsMusicianMeans(gains[1..]);
      if exists j :: 0 <= j < |gains| && IsMusician(gains[j]) {
        var j :| 0 <= j < |gains| && IsMusician(gains[j]);
        if j > 0 {
          assert gains[1..][j - 1] == gains[j];
        }
      }
      if exists j :: 0 <= j < |gains[1..]| && IsMusician(gains[1..][j]) {
        var j :| 0 <= j < |gains[1..]| && IsMusician(gains[1..][j]);
        assert gains[j + 1] == gains[1..][j];
      }
    }
  }

  /** A section is a command group exactly when one of its options grants
      something named "musician", whatever the letter case. */
  lemma {:induction false} CommandGroupMeans(options: seq<UpgradeOption>)
    ensures SomeOptionHasMusician(options) <==>
      exists i, j :: 0 <= i < |options| && 0 <= j < |options[i].gains| && IsMusician(options[i].gains[j])
  {
    if |options| > 0 {
      CommandGroupMeans(options[1..]);
      SomeGainIsMusicianMeans(options[0].gains);
      if exists i, j :: 0 <= i < |options| && 0 <= j < |options[i].gains| && IsMusician(options[i].gains[j]) {
        var i, j :| 0 <= i < |options| && 0 <= j < |options[i].gains| && IsMusician(options[i].gains[j]);
        if i > 0 {
          assert options[1..][i - 1] == options[i];
        }
      }
      if exists i, j :: 0 <= i < |options[1..]| && 0 <= j < |options[1..][i].gains| && IsMusician(options[1..][i].gains[j]) {
        var i, j :| 0 <= i < |options[1..]| && 0 <= j < |options[1..][i].gains| && IsMusician(options[1..][i].gains[j]);
        assert options[i + 1] == options[1..][i];
      }
    }
  }

  /** The letter case of the name does not matter; a longer name does. */
  lemma MusicianExamples()
    ensures IsMusician(Item("m", "Musician", None, 1, false, []))
    ensures IsMusician(Item("m", "MUSICIAN", None, 1, false, []))
    ensures !IsMusician(Item("m", "Musicians", None, 1, false, []))
  {
    assert Lower("Musician") == "musician";
    assert Lower("MUSICIAN") == "musician";
    assert |Lower("Musicians")| == 9;
  }

  // ---------------------------------------------------------------------------
  // Packages, sections and options
  // ---------------------------------------------------------------------------

  /** The option with its section's uid and without the server-side fields. */
  function TransformOption(o: UpgradeOption, sectionUid: string): UpgradeOption
  {
    o.(parentSectionId := Some(sectionUid), proposedCost := None, proposedCostHint := None,
       proposedVersion := None, parentPackageUid := None, parentSectionUid := None)
  }

  function TransformOptions(options: seq<UpgradeOption>, sectionUid: string): (r: seq<UpgradeOption>)
    ensures |r| == |options|
  {
    seq(|options|, k requires 0 <= k < |options| => TransformOption(options[k], sectionUid))
  }

  function TransformSection(s: Section): Section
  {
    s.(isCommandGroup := SomeOptionHasMusician(s.options), options := TransformOptions(s.options, s.uid))
  }

  /** Every section keeps its fields, apart from the command-group flag and
      the options it normalises, and keeps its number of options. */
  function TransformSections(sections: seq<Section>): (r: seq<Section>)
    ensures |r| == |sections|
    ensures forall j :: 0 <= j < |r| ==>
              r[j] == sections[j].(isCommandGroup := r[j].isCommandGroup, options := r[j].options)
              && |r[j].options| == |sections[j].options|
  {
    Map(sections, TransformSection)
  }

  function TransformPackage(p: Package): Package
  {
    p.(sections := TransformSections(p.sections))
  }

  /** The packages keep their number, order and uids, and each keeps its
      number of sections. */
  function TransformPackages(pkgs: seq<Package>): (r: seq<Package>)
    ensures |r| == |pkgs|
    ensures forall i :: 0 <= i < |r| ==>
              r[i] == pkgs[i].(sections := r[i].sections) && |r[i].sections| == |pkgs[i].sections|
  {
    Map(pkgs, TransformPackage)
  }

  /** Option `k` of section `j` of package `i` after normalisation: it points at
      its section, carries no server-side field, and keeps everything else; the
      section keeps its uid, kind and targets and is a command group exactly
      when one of its options grants a musician. */
  lemma TransformedOption(pkgs: seq<Package>, i: nat, j: nat, k: nat)
    requires i < |pkgs| && j < |pkgs[i].sections| && k < |pkgs[i].sections[j].options|
    ensures var s := pkgs[i].sections[j];
      var s' := TransformPackages(pkgs)[i].sections[j];
      var o := s.options[k];
      var o' := s'.options[k];
      && |TransformPackages(pkgs)[i].sections| == |pkgs[i].sections|
      && |s'.options| == |s.options|
      && s'.uid == s.uid && s'.replaceWhat == s.replaceWhat && s'.sectionType == s.sectionType
      && (s'.isCommandGroup <==> exists a, b :: 0 <= a < |s.options| && 0 <= b < |s.options[a].gains| && IsMusician(s.options[a].gains[b]))
      && o'.parentSectionId == Some(s'.uid)
      && o'.proposedCost.None? && o'.proposedCostHint.None? && o'.proposedVersion.None?
      && o'.parentPackageUid.None? && o'.parentSectionUid.None?
      && o'.id == o.id && o'.labelText == o.labelText && o'.cost == o.cost && o'.gains == o.gains && o'.isModel == o.isModel
  {
    CommandGroupMeans(pkgs[i].sections[j].options);
  }

  // ---------------------------------------------------------------------------
  // Units and the whole book
  // ---------------------------------------------------------------------------

  /** The unit at position `index`, stamped for the army `armyId`. */
  function TransformUnit(u: Unit, index: nat, armyId: string, pkgs: seq<Package>, matches: (Gain, string) -> bool): Unit
  {
    u.(armyId := armyId, selectedUpgrades := [], sortId := index,
       disabledUpgradeSections := DisabledUpgradeSections(u, pkgs, matches))
  }

  /** `transformArmyBookData`; `matches` is the equipment service's name
      comparison used for disabled sections. */
  function TransformArmyBookData(data: ArmyBook, armyId: string, matches: (Gain, string) -> bool): (r: ArmyBook)
    ensures |r.units| == |data.units| && |r.upgradePackages| == |data.upgradePackages|
    ensures r.uid == data.uid && r.name == data.name && r.factionName == data.factionName
    ensures r.specialRules == data.specialRules
  {
    var pkgs := TransformPackages(data.upgradePackages);
    data.(units := seq(|data.units|, i requires 0 <= i < |data.units| => TransformUnit(data.units[i], i, armyId, pkgs, matches)),
          upgradePackages := pkgs)
  }

  /** Unit `i` keeps its place and all its catalogue data; it is stamped with
      its position as sort id, with the requested army, with no selections, and
      with the sections its equipment cannot use, which are the same whether
      they are computed against the raw or the normalised packages. */
  lemma TransformedUnit(data: ArmyBook, armyId: string, matches: (Gain, string) -> bool, i: nat)
    requires i < |data.units|
    ensures var u := data.units[i];
      var u' := TransformArmyBookData(data, armyId, matches).units[i];
      && u'.sortId == i && u'.armyId == armyId && u'.selectedUpgrades == []
      && u'.disabledUpgradeSections == DisabledUpgradeSections(u, data.upgradePackages, matches)
      && u'.disabledUpgradeSections == DisabledUpgradeSections(u, TransformArmyBookData(data, armyId, matches).upgradePackages, matches)
      && u'.id == u.id && u'.name == u.name && u'.size == u.size && u'.cost == u.cost
      && u'.quality == u.quality && u'.defense == u.defense && u'.specialRules == u.specialRules
      && u'.equipment == u.equipment && u'.upgrades == u.upgrades
  {
    DisabledSectionsUnaffected(data.units[i], data.upgradePackages, matches);
  }

  // ---------------------------------------------------------------------------
  // Normalisation does not change which sections are disabled
  // ---------------------------------------------------------------------------

  lemma {:induction false} FindTransformedPackage(pkgs: seq<Package>, uid: string)
    ensures FindPackage(TransformPackages(pkgs), uid) ==
      (match FindPackage(pkgs, uid) case Some(p) => Some(TransformPackage(p)) case None => None)
  {
    if |pkgs| > 0 && pkgs[0].uid != uid {
      assert TransformPackages(pkgs)[1..] == TransformPackages(pkgs[1..]);
      FindTransformedPackage(pkgs[1..], uid);
    }
  }

  lemma {:induction false} PackagesForUnitTransformed(ids: seq<string>, pkgs: seq<Package>)
    ensures PackagesForUnit(ids, TransformPackages(pkgs)) == TransformPackages(PackagesForUnit(ids, pkgs))
  {
    if |ids| > 0 {
      var init := ids[..|ids| - 1];
      PackagesForUnitTransformed(init, pkgs);
      FindTransformedPackage(pkgs, ids[|ids| - 1]);
      var front := PackagesForUnit(init, pkgs);
      var found := match FindPackage(pkgs, ids[|ids| - 1]) case Some(p) => [p] case None => [];
      MapConcat(front, found, TransformPackage);
    }
  }

  lemma {:induction false} SectionsOfTransformed(pkgs: seq<Package>)
    ensures SectionsOf(TransformPackages(pkgs)) == TransformSections(SectionsOf(pkgs))
  {
    if |pkgs| > 0 {
      var init := pkgs[..|pkgs| - 1];
      SectionsOfTransformed(init);
      assert TransformPackages(pkgs)[..|pkgs| - 1] == TransformPackages(init);
      var front := SectionsOf(init);
      var last := pkgs[|pkgs| - 1].sections;
      MapConcat(front, last, TransformSection);
    }
  }

  lemma {:induction false} ReachableGainsConcat(a: seq<UpgradeOption>, b: seq<UpgradeOption>)
    ensures ReachableGains(a + b) == ReachableGains(a) + ReachableGains(b)
  {
    if |b| > 0 {
      ReachableGainsConcat(a, b[..|b| - 1]);
      assert (a + b)[..|a + b| - 1] == a + b[..|b| - 1];
    } else {
      assert a + b == a;
    }
  }

  lemma {:induction false} ReachableGainsOfTransformedOptions(options: seq<UpgradeOption>, uid: string)
    ensures ReachableGains(TransformOptions(options, uid)) == ReachableGains(options)
  {
    if |options| > 0 {
      var init := options[..|options| - 1];
      ReachableGainsOfTransformedOptions(init, uid);
      assert TransformOptions(options, uid)[..|options| - 1] == TransformOptions(init, uid);
    }
  }

  lemma {:induction false} ReachableGainsOfTransformedSections(sections: seq<Section>)
    ensures ReachableGains(OptionsOf(TransformSections(sections))) == ReachableGains(OptionsOf(sections))
  {
    if |sections| > 0 {
      var init, last := sections[..|sections| - 1], sections[|sections| - 1];
      ReachableGainsOfTransformedSections(init);
      assert TransformSections(sections)[..|sections| - 1] == TransformSections(init);
      ReachableGainsConcat(OptionsOf(TransformSections(init)), TransformSection(last).options);
      ReachableGainsConcat(OptionsOf(init), last.options);
      ReachableGainsOfTransformedOptions(last.options, last.uid);
    }
  }

  lemma {:induction false} DisabledAmongTransformed(equipment: seq<Gain>, gains: seq<Gain>, sections: seq<Section>,
                                                    matches: (Gain, string) -> bool)
    ensures DisabledAmong(equipment, gains, TransformSections(sections), matches) == DisabledAmong(equipment, gains, sections, matches)
  {
    if |sections| > 0 {
      DisabledAmongTransformed(equipment, gains, sections[..|sections| - 1], matches);
      assert TransformSections(sections)[..|sections| - 1] == TransformSections(sections[..|sections| - 1]);
    }
  }

  /** Normalisation keeps every section's uid, its targets and its options'
      gains, so a unit's disabled sections are the same against the raw and the
      normalised packages. */
  lemma DisabledSectionsUnaffected(u: Unit, pkgs: seq<Package>, matches: (Gain, string) -> bool)
    ensures DisabledUpgradeSections(u, TransformPackages(pkgs), matches) == DisabledUpgradeSections(u, pkgs, matches)
  {
    var mine := PackagesForUnit(u.upgrades, pkgs);
    PackagesForUnitTransformed(u.upgrades, pkgs);
    SectionsOfTransformed(mine);
    ReachableGainsOfTransformedSections(SectionsOf(mine));
    DisabledAmongTransformed(u.equipment, ReachableGains(OptionsOf(SectionsOf(mine))), SectionsOf(mine), matches);
  }
}
