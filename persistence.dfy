/** Saving a list as a minimal record and rebuilding it from the catalogues
    (services/PersistenceService.ts). The upgrade service's `apply` and
    `buildUpgrades` are not part of this model; they are parameters. */
module Persistence {
  import opened Basics
  import opened Army

  const SavePrefix: string := "AF_Save_"
  const CurrentSaveVersion: int := 3

  /** `getSaveKey`: the storage key of a list. */
  function GetSaveKey(creationTime: string): (key: string)
    ensures |key| == |SavePrefix| + |creationTime|
    ensures key[..|SavePrefix|] == SavePrefix && key[|SavePrefix|..] == creationTime
  {
    SavePrefix + creationTime
  }

  /** Different lists get different keys. */
  lemma SaveKeyInjective(a: string, b: string)
    requires GetSaveKey(a) == GetSaveKey(b)
    ensures a == b
  {
    assert a == GetSaveKey(a)[|SavePrefix|..];
  }

  // ---------------------------------------------------------------------------
  // Save records
  // ---------------------------------------------------------------------------

  /** A stored selection. Version 3 records carry the section uid and option id;
      version 2 records may carry the option id under `id` instead. */
  datatype SavedUpgrade = SavedUpgrade(
    instanceId: string,
    upgradeId: Option<string>,
    optionId: Option<string>,
    legacyId: Option<string>)

  datatype SavedUnit = SavedUnit(
    id: string,
    armyId: string,
    customName: Option<string>,
    selectionId: string,
    selectedUpgrades: seq<SavedUpgrade>,
    combined: bool,
    joinToUnit: Option<string>,
    xp: nat,
    traits: seq<string>,
    notes: Option<string>)

  /** The list fields are stored as they are; only the units are reduced. */
  datatype SavedList = SavedList(
    name: string,
    pointsLimit: nat,
    points: nat,
    creationTime: string,
    gameSystem: string,
    campaignMode: bool,
    competitive: bool,
    units: seq<SavedUnit>)

  datatype SaveData = SaveData(saveVersion: int, list: SavedList)

  function SaveUpgrade(s: SelectedUpgrade): SavedUpgrade
  {
    SavedUpgrade(s.instanceId, Some(s.upgrade.uid), Some(s.option.id), None)
  }

  function SaveUpgrades(sel: seq<SelectedUpgrade>): (saved: seq<SavedUpgrade>)
    ensures |saved| == |sel|
  {
    seq(|sel|, i requires 0 <= i < |sel| => SaveUpgrade(sel[i]))
  }

  /** A unit reduced to its identity, its customisation and its selections as
      (section uid, option id) pairs in selection order. */
  function SaveUnit(u: Unit): (s: SavedUnit)
    ensures s.id == u.id && s.armyId == u.armyId && s.customName == u.customName && s.selectionId == u.selectionId
    ensures s.combined == u.combined && s.joinToUnit == u.joinToUnit && s.xp == u.xp && s.traits == u.traits
    ensures s.notes == u.notes && |s.selectedUpgrades| == |u.selectedUpgrades|
    ensures forall k :: 0 <= k < |u.selectedUpgrades| ==>
      s.selectedUpgrades[k].instanceId == u.selectedUpgrades[k].instanceId
      && s.selectedUpgrades[k].upgradeId == Some(u.selectedUpgrades[k].upgrade.uid)
      && s.selectedUpgrades[k].optionId == Some(u.selectedUpgrades[k].option.id)
  {
    SavedUnit(u.id, u.armyId, u.customName, u.selectionId, SaveUpgrades(u.selectedUpgrades),
              u.combined, u.joinToUnit, u.xp, u.traits, u.notes)
  }

  function SaveUnits(units: seq<Unit>): (saved: seq<SavedUnit>)
    ensures |saved| == |units|
  {
    seq(|units|, i requires 0 <= i < |units| => SaveUnit(units[i]))
  }

  /** `getDataForSave`: the list's own fields, and every unit in order reduced
      by `SaveUnit`. */
  function GetDataForSave(list: ListState): (saved: SavedList)
    ensures saved.name == list.name && saved.points == list.points && saved.pointsLimit == list.pointsLimit
    ensures saved.creationTime == list.creationTime && saved.gameSystem == list.gameSystem
    ensures saved.campaignMode == list.campaignMode && saved.competitive == list.competitive
    ensures |saved.units| == |list.units|
    ensures forall i :: 0 <= i < |list.units| ==> saved.units[i] == SaveUnit(list.units[i])
  {
    SavedList(list.name, list.pointsLimit, list.points, list.creationTime, list.gameSystem,
              list.campaignMode, list.competitive, SaveUnits(list.units))
  }

  /** `createSave`'s record: the current version and the reduced list. */
  function NewSaveData(list: ListState): (save: SaveData)
    ensures save.saveVersion == 3 && save.list == GetDataForSave(list)
  {
    SaveData(CurrentSaveVersion, GetDataForSave(list))
  }

  // ---------------------------------------------------------------------------
  // Looking things up in the catalogues
  // ---------------------------------------------------------------------------

  /** The sections of a sequence of packages, package by package. */
  function PackageSections(pkgs: seq<Package>): seq<Section>
  {
    if |pkgs| == 0 then [] else PackageSections(pkgs[..|pkgs| - 1]) + pkgs[|pkgs| - 1].sections
  }

  /** The packages of every book, book by book. */
  function BookPackages(books: seq<ArmyBook>): seq<Package>
  {
    if |books| == 0 then [] else BookPackages(books[..|books| - 1]) + books[|books| - 1].upgradePackages
  }

  /** Every book's units, each stamped with its book's uid. */
  function BookUnits(books: seq<ArmyBook>): seq<Unit>
  {
    if |books| == 0 then []
    else
      var book := books[|books| - 1];
      BookUnits(books[..|books| - 1])
        + seq(|book.units|, i requires 0 <= i < |book.units| => book.units[i].(armyId := book.uid))
  }

  /** The options of every section, section by section. */
  function SectionOptions(sections: seq<Section>): seq<UpgradeOption>
  {
    if |sections| == 0 then [] else SectionOptions(sections[..|sections| - 1]) + sections[|sections| - 1].options
  }

  /** `allSections.find(sec => sec.uid === uid)`; an absent uid matches nothing. */
  function FindSection(sections: seq<Section>, uid: Option<string>): (r: Option<Section>)
    ensures r.Some? ==> r.value in sections && uid == Some(r.value.uid)
    ensures r.None? ==> forall s :: s in sections ==> uid != Some(s.uid)
    ensures r.Some? ==> exists i :: 0 <= i < |sections| && sections[i] == r.value && forall j :: 0 <= j < i ==> uid != Some(sections[j].uid)
  {
    if |sections| == 0 then None
    else if uid == Some(sections[0].uid) then Some(sections[0])
    else FindSection(sections[1..], uid)
  }

  /** `section.options.find(opt => opt.id === id)`. */
  function FindOption(options: seq<UpgradeOption>, id: Option<string>): (r: Option<UpgradeOption>)
    ensures r.Some? ==> r.value in options && id == Some(r.value.id)
    ensures r.None? ==> forall o :: o in options ==> id != Some(o.id)
    ensures r.Some? ==> exists i :: 0 <= i < |options| && options[i] == r.value && forall j :: 0 <= j < i ==> id != Some(options[j].id)
  {
    if |options| == 0 then None
    else if id == Some(options[0].id) then Some(options[0])
    else FindOption(options[1..], id)
  }

  /** The version 2 lookup: an option matches on either stored id. */
  function FindLegacyOption(options: seq<UpgradeOption>, upg: SavedUpgrade): (r: Option<UpgradeOption>)
    ensures r.Some? ==> r.value in options && (upg.legacyId == Some(r.value.id) || upg.optionId == Some(r.value.id))
    ensures r.None? ==> forall o :: o in options ==> upg.legacyId != Some(o.id) && upg.optionId != Some(o.id)
    ensures r.Some? ==> exists i ::
              && 0 <= i < |options| && options[i] == r.value
              && forall j :: 0 <= j < i ==> upg.legacyId != Some(options[j].id) && upg.optionId != Some(options[j].id)
  {
    if |options| == 0 then None
    else if upg.legacyId == Some(options[0].id) || upg.optionId == Some(options[0].id) then Some(options[0])
    else FindLegacyOption(options[1..], upg)
  }

  // ---------------------------------------------------------------------------
  // Rebuilding
  // ---------------------------------------------------------------------------

  /** Why a rebuild throws: the unit or the section is not in the catalogues,
      or there is no book to read a version 2 save against. */
  datatype LoadError = UnknownUnit(id: string) | UnknownSection(upgradeId: Option<string>) | NoArmyBook

  /** `{ ...definition, ...saved, equipment: copy, selectedUpgrades: [], loadout: [] }`. */
  function Overlay(def: Unit, s: SavedUnit): (u: Unit)
    ensures u.id == s.id && u.armyId == s.armyId && u.customName == s.customName
    ensures u.selectionId == s.selectionId && u.combined == s.combined && u.joinToUnit == s.joinToUnit
    ensures u.xp == s.xp && u.traits == s.traits && u.notes == s.notes
    ensures u.equipment == def.equipment && u.selectedUpgrades == [] && u.loadout == []
    ensures u.name == def.name && u.size == def.size && u.cost == def.cost && u.specialRules == def.specialRules
    ensures u.upgrades == def.upgrades && u.sortId == def.sortId
  {
    def.(id := s.id, armyId := s.armyId, customName := s.customName, selectionId := s.selectionId,
         combined := s.combined, joinToUnit := s.joinToUnit, xp := s.xp, traits := s.traits, notes := s.notes,
         equipment := def.equipment, selectedUpgrades := [], loadout := [])
  }

  /** The selections of a version 3 save replayed in stored order: each resolves
      its section (throwing when the section is missing) and its option (a
      missing option is skipped), and the unit goes through `apply`. */
  function ReplayV3(start: Unit, upgs: seq<SavedUpgrade>, sections: seq<Section>,
                    apply: (Unit, Option<Section>, UpgradeOption) -> Unit): Result<Unit, LoadError>
  {
    if |upgs| == 0 then Ok(start)
    else
      match ReplayV3(start, upgs[..|upgs| - 1], sections, apply)
      case Err(e) => Err(e)
      case Ok(unit) =>
        var upg := upgs[|upgs| - 1];
        match FindSection(sections, upg.upgradeId)
        case None => Err(UnknownSection(upg.upgradeId))
        case Some(section) =>
          match FindOption(section.options, upg.optionId)
          case None => Ok(unit)
          case Some(option) => Ok(apply(unit, Some(section), option))
  }

  /** Once a stored selection has thrown, the rest of the replay does not matter. */
  lemma {:induction false} ReplayV3ErrorStays(start: Unit, upgs: seq<SavedUpgrade>, n: nat, sections: seq<Section>,
                                             apply: (Unit, Option<Section>, UpgradeOption) -> Unit)
    requires n <= |upgs| && ReplayV3(start, upgs[..n], sections, apply).Err?
    ensures ReplayV3(start, upgs, sections, apply) == ReplayV3(start, upgs[..n], sections, apply)
  {
    if n < |upgs| {
      assert upgs[..|upgs| - 1][..n] == upgs[..n];
      ReplayV3ErrorStays(start, upgs[..|upgs| - 1], n, sections, apply);
      assert upgs[..|upgs|] == upgs;
    } else {
      assert upgs[..n] == upgs;
    }
  }

  /** The inner loop of `buildListFromSave_v3` for one unit. */
  method ReplaySelectionsV3(start: Unit, upgs: seq<SavedUpgrade>, sections: seq<Section>,
                            apply: (Unit, Option<Section>, UpgradeOption) -> Unit)
    returns (r: Result<Unit, LoadError>)
    ensures r == ReplayV3(start, upgs, sections, apply)
  {
    var unit := start;
    for i := 0 to |upgs|
      invariant ReplayV3(start, upgs[..i], sections, apply) == Ok(unit)
    {
      var upg := upgs[i];
      assert upgs[..i + 1][..i] == upgs[..i];
      var section := FindSection(sections, upg.upgradeId);
      if section.None? {
        r := Err(UnknownSection(upg.upgradeId));
        ReplayV3ErrorStays(start, upgs, i + 1, sections, apply);
        return;
      }
      var option := FindOption(section.value.options, upg.optionId);
      if option.Some? {
        unit := apply(unit, section, option.value);
      }
    }
    assert upgs[..|upgs|] == upgs;
    r := Ok(unit);
  }

  /** One unit of a version 3 save: its definition is looked up across every
      book, overlaid with the saved fields, replayed, and finished by
      `buildUpgrades`. */
  function RebuildUnitV3(s: SavedUnit, books: seq<ArmyBook>,
                         apply: (Unit, Option<Section>, UpgradeOption) -> Unit, build: Unit -> Unit): (r: Result<Unit, LoadError>)
    ensures (forall d :: d in BookUnits(books) ==> d.id != s.id) ==> r == Err(UnknownUnit(s.id))
    ensures r.Ok? ==> exists d :: d in BookUnits(books) && d.id == s.id
  {
    match FindById(BookUnits(books), s.id)
    case None => Err(UnknownUnit(s.id))
    case Some(def) =>
      match ReplayV3(Overlay(def, s), s.selectedUpgrades, PackageSections(BookPackages(books)), apply)
      case Err(e) => Err(e)
      case Ok(unit) => Ok(build(unit))
  }

  /** The units of a version 3 save, rebuilt in order; the first failure throws. */
  function RebuildUnitsV3(saved: seq<SavedUnit>, books: seq<ArmyBook>,
                          apply: (Unit, Option<Section>, UpgradeOption) -> Unit, build: Unit -> Unit): Result<seq<Unit>, LoadError>
  {
    if |saved| == 0 then Ok([])
    else
      match RebuildUnitsV3(saved[..|saved| - 1], books, apply, build)
      case Err(e) => Err(e)
      case Ok(units) =>
        match RebuildUnitV3(saved[|saved| - 1], books, apply, build)
        case Err(e) => Err(e)
        case Ok(u) => Ok(units + [u])
  }

  /** The list fields of a save, with the rebuilt units. */
  function ListFrom(saved: SavedList, units: seq<Unit>): ListState
  {
    ListState(saved.name, saved.pointsLimit, saved.points, saved.creationTime, saved.gameSystem,
              saved.campaignMode, saved.competitive, units)
  }

  /** `buildListFromSave_v3`. */
  function BuildListV3(saved: SavedList, books: seq<ArmyBook>,
                       apply: (Unit, Option<Section>, UpgradeOption) -> Unit, build: Unit -> Unit): Result<ListState, LoadError>
  {
    match RebuildUnitsV3(saved.units, books, apply, build)
    case Err(e) => Err(e)
    case Ok(units) => Ok(ListFrom(saved, units))
  }

  /** `buildListFromSave_v3`, unit by unit. */
  method BuildListFromSaveV3(saved: SavedList, books: seq<ArmyBook>,
                             apply: (Unit, Option<Section>, UpgradeOption) -> Unit, build: Unit -> Unit)
    returns (r: Result<ListState, LoadError>)
    ensures r == BuildListV3(saved, books, apply, build)
  {
    var sections := PackageSections(BookPackages(books));
    var definitions := BookUnits(books);
    var units: seq<Unit> := [];
    for i := 0 to |saved.units|
      invariant RebuildUnitsV3(saved.units[..i], books, apply, build) == Ok(units)
    {
      var s := saved.units[i];
      assert saved.units[..i + 1][..i] == saved.units[..i];
      var def := FindById(definitions, s.id);
      if def.None? {
        RebuildUnitsV3ErrorStays(saved.units, i + 1, books, apply, build);
        return Err(UnknownUnit(s.id));
      }
      var replayed := ReplaySelectionsV3(Overlay(def.value, s), s.selectedUpgrades, sections, apply);
      if replayed.Err? {
        RebuildUnitsV3ErrorStays(saved.units, i + 1, books, apply, build);
        return Err(replayed.error);
      }
      units := units + [build(replayed.value)];
    }
    assert saved.units[..|saved.units|] == saved.units;
    r := Ok(ListFrom(saved, units));
  }

  lemma {:induction false} RebuildUnitsV3ErrorStays(saved: seq<SavedUnit>, n: nat, books: seq<ArmyBook>,
                                                    apply: (Unit, Option<Section>, UpgradeOption) -> Unit, build: Unit -> Unit)
    requires n <= |saved| && RebuildUnitsV3(saved[..n], books, apply, build).Err?
    ensures RebuildUnitsV3(saved, books, apply, build) == RebuildUnitsV3(saved[..n], books, apply, build)
  {
    if n < |saved| {
      assert saved[..|saved| - 1][..n] == saved[..n];
      RebuildUnitsV3ErrorStays(saved[..|saved| - 1], n, books, apply, build);
    } else {
      assert saved[..n] == saved;
    }
  }

  /** The selections of a version 2 save replayed in stored order: the option is
      looked up among every option of the first book, its section through the
      option's parent section id, and a missing option is skipped. */
  function ReplayV2(start: Unit, upgs: seq<SavedUpgrade>, sections: seq<Section>, options: seq<UpgradeOption>,
                    apply: (Unit, Option<Section>, UpgradeOption) -> Unit): Unit
  {
    if |upgs| == 0 then start
    else
      var unit := ReplayV2(start, upgs[..|upgs| - 1], sections, options, apply);
      match FindLegacyOption(options, upgs[|upgs| - 1])
      case None => unit
      case Some(option) => apply(unit, FindSection(sections, option.parentSectionId), option)
  }

  /** The inner loop of `buildListFromSave_v2` for one unit. */
  method ReplaySelectionsV2(start: Unit, upgs: seq<SavedUpgrade>, sections: seq<Section>, options: seq<UpgradeOption>,
                            apply: (Unit, Option<Section>, UpgradeOption) -> Unit)
    returns (unit: Unit)
    ensures unit == ReplayV2(start, upgs, sections, options, apply)
  {
    unit := start;
    for i := 0 to |upgs|
      invariant unit == ReplayV2(start, upgs[..i], sections, options, apply)
    {
      assert upgs[..i + 1][..i] == upgs[..i];
      var option := FindLegacyOption(options, upgs[i]);
      if option.Some? {
        var section := FindSection(sections, option.value.parentSectionId);
        unit := apply(unit, section, option.value);
      }
    }
    assert upgs[..|upgs|] == upgs;
  }

  /** One unit of a version 2 save: its definition comes from the first book
      only, and the unit is forced into that book. */
  function RebuildUnitV2(s: SavedUnit, book: ArmyBook,
                         apply: (Unit, Option<Section>, UpgradeOption) -> Unit, build: Unit -> Unit): (r: Result<Unit, LoadError>)
    ensures r.Err? <==> forall d :: d in book.units ==> d.id != s.id
    ensures r.Err? ==> r.error == UnknownUnit(s.id)
  {
    match FindById(book.units, s.id)
    case None => Err(UnknownUnit(s.id))
    case Some(def) =>
      var sections := PackageSections(book.upgradePackages);
      Ok(build(ReplayV2(Overlay(def, s).(armyId := book.uid), s.selectedUpgrades, sections, SectionOptions(sections), apply)))
  }

  function RebuildUnitsV2(saved: seq<SavedUnit>, book: ArmyBook,
                          apply: (Unit, Option<Section>, UpgradeOption) -> Unit, build: Unit -> Unit): Result<seq<Unit>, LoadError>
  {
    if |saved| == 0 then Ok([])
    else
      match RebuildUnitsV2(saved[..|saved| - 1], book, apply, build)
      case Err(e) => Err(e)
      case Ok(units) =>
        match RebuildUnitV2(saved[|saved| - 1], book, apply, build)
        case Err(e) => Err(e)
        case Ok(u) => Ok(units + [u])
  }

  /** `buildListFromSave_v2`: reading the first book's packages throws when no
      book is loaded. */
  function BuildListV2(saved: SavedList, books: seq<ArmyBook>,
                       apply: (Unit, Option<Section>, UpgradeOption) -> Unit, build: Unit -> Unit): Result<ListState, LoadError>
  {
    if |books| == 0 then Err(NoArmyBook)
    else
      match RebuildUnitsV2(saved.units, books[0], apply, build)
      case Err(e) => Err(e)
      case Ok(units) => Ok(ListFrom(saved, units))
  }

  /** `buildListFromSave_v2`, unit by unit. */
  method BuildListFromSaveV2(saved: SavedList, books: seq<ArmyBook>,
                             apply: (Unit, Option<Section>, UpgradeOption) -> Unit, build: Unit -> Unit)
    returns (r: Result<ListState, LoadError>)
    ensures r == BuildListV2(saved, books, apply, build)
  {
    if |books| == 0 {
      return Err(NoArmyBook);
    }
    var book := books[0];
    var sections := PackageSections(book.upgradePackages);
    var options := SectionOptions(sections);
    var units: seq<Unit> := [];
    for i := 0 to |saved.units|
      invariant RebuildUnitsV2(saved.units[..i], book, apply, build) == Ok(units)
    {
      var s := saved.units[i];
      assert saved.units[..i + 1][..i] == saved.units[..i];
      var def := FindById(book.units, s.id);
      if def.None? {
        RebuildUnitsV2ErrorStays(saved.units, i + 1, book, apply, build);
        return Err(UnknownUnit(s.id));
      }
      var unit := ReplaySelectionsV2(Overlay(def.value, s).(armyId := book.uid), s.selectedUpgrades, sections, options, apply);
      units := units + [build(unit)];
    }
    assert saved.units[..|saved.units|] == saved.units;
    r := Ok(ListFrom(saved, units));
  }

  lemma {:induction false} RebuildUnitsV2ErrorStays(saved: seq<SavedUnit>, n: nat, book: ArmyBook,
                                                    apply: (Unit, Option<Section>, UpgradeOption) -> Unit, build: Unit -> Unit)
    requires n <= |saved| && RebuildUnitsV2(saved[..n], book, apply, build).Err?
    ensures RebuildUnitsV2(saved, book, apply, build) == RebuildUnitsV2(saved[..n], book, apply, build)
  {
    if n < |saved| {
      assert saved[..|saved| - 1][..n] == saved[..n];
      RebuildUnitsV2ErrorStays(saved[..|saved| - 1], n, book, apply, build);
    } else {
      assert saved[..n] == saved;
    }
  }

  /** `buildListFromSave`: version 3 and version 2 saves go to their builders,
      any other version yields no list. */
  method BuildListFromSave(save: SaveData, books: seq<ArmyBook>,
                           apply: (Unit, Option<Section>, UpgradeOption) -> Unit, build: Unit -> Unit)
    returns (r: Option<Result<ListState, LoadError>>)
    ensures save.saveVersion == 3 ==> r == Some(BuildListV3(save.list, books, apply, build))
    ensures save.saveVersion == 2 ==> r == Some(BuildListV2(save.list, books, apply, build))
    ensures save.saveVersion != 2 && save.saveVersion != 3 ==> r == None
  {
    if save.saveVersion == 3 {
      var built := BuildListFromSaveV3(save.list, books, apply, build);
      r := Some(built);
    } else if save.saveVersion == 2 {
      var built := BuildListFromSaveV2(save.list, books, apply, build);
      r := Some(built);
    } else {
      r := None;
    }
  }

  // ---------------------------------------------------------------------------
  // Saving and rebuilding
  // ---------------------------------------------------------------------------

  /** The selections of a unit applied in order, as the list builder applied them. */
  function ApplyAll(start: Unit, sel: seq<SelectedUpgrade>, apply: (Unit, Option<Section>, UpgradeOption) -> Unit): Unit
  {
    if |sel| == 0 then start
    else apply(ApplyAll(start, sel[..|sel| - 1], apply), Some(sel[|sel| - 1].upgrade), sel[|sel| - 1].option)
  }

  /** Every selection's section is the first section of the catalogues with its
      uid, and its option the first option of that section with its id: what
      holds when uids and ids are unique and the selections come from the
      loaded books. */
  predicate ResolvesIn(sel: seq<SelectedUpgrade>, sections: seq<Section>) {
    forall i :: 0 <= i < |sel| ==>
      FindSection(sections, Some(sel[i].upgrade.uid)) == Some(sel[i].upgrade)
      && FindOption(sel[i].upgrade.options, Some(sel[i].option.id)) == Some(sel[i].option)
  }

  /** Replaying saved selections applies exactly the original selections, in
      their original order. */
  lemma {:induction false} ReplaySavedSelections(start: Unit, sel: seq<SelectedUpgrade>, sections: seq<Section>,
                                                 apply: (Unit, Option<Section>, UpgradeOption) -> Unit)
    requires ResolvesIn(sel, sections)
    ensures ReplayV3(start, SaveUpgrades(sel), sections, apply) == Ok(ApplyAll(start, sel, apply))
  {
    if |sel| > 0 {
      var init := sel[..|sel| - 1];
      assert SaveUpgrades(sel)[..|sel| - 1] == SaveUpgrades(init);
      ReplaySavedSelections(start, init, sections, apply);
    }
  }

  /** A unit whose definition and selections are in the loaded books comes back
      from its save record as the definition overlaid with the unit's own
      identity, with the original selections applied in order. */
  lemma SaveThenRebuildUnit(u: Unit, books: seq<ArmyBook>,
                            apply: (Unit, Option<Section>, UpgradeOption) -> Unit, build: Unit -> Unit)
    requires FindById(BookUnits(books), u.id).Some?
    requires ResolvesIn(u.selectedUpgrades, PackageSections(BookPackages(books)))
    ensures var start := Overlay(FindById(BookUnits(books), u.id).value, SaveUnit(u));
      && RebuildUnitV3(SaveUnit(u), books, apply, build) == Ok(build(ApplyAll(start, u.selectedUpgrades, apply)))
      && start.id == u.id && start.armyId == u.armyId && start.selectionId == u.selectionId
      && start.customName == u.customName && start.combined == u.combined && start.joinToUnit == u.joinToUnit
      && start.xp == u.xp && start.traits == u.traits && start.notes == u.notes
  {
    var def := FindById(BookUnits(books), u.id).value;
    ReplaySavedSelections(Overlay(def, SaveUnit(u)), u.selectedUpgrades, PackageSections(BookPackages(books)), apply);
  }

  /** When every saved unit rebuilds on its own, the whole sequence rebuilds,
      unit by unit in order. */
  lemma {:induction false} RebuildUnitsEach(saved: seq<SavedUnit>, books: seq<ArmyBook>,
                                            apply: (Unit, Option<Section>, UpgradeOption) -> Unit, build: Unit -> Unit)
    requires forall i :: 0 <= i < |saved| ==> RebuildUnitV3(saved[i], books, apply, build).Ok?
    ensures var r := RebuildUnitsV3(saved, books, apply, build);
      r.Ok? && |r.value| == |saved|
      && forall i :: 0 <= i < |saved| ==> Ok(r.value[i]) == RebuildUnitV3(saved[i], books, apply, build)
  {
    if |saved| > 0 {
      var init := saved[..|saved| - 1];
      forall i | 0 <= i < |init| ensures RebuildUnitV3(init[i], books, apply, build).Ok? {
        assert init[i] == saved[i];
      }
      RebuildUnitsEach(init, books, apply, build);
      RebuildUnitsStep(saved, books, apply, build);
    }
  }

  lemma RebuildUnitsStep(saved: seq<SavedUnit>, books: seq<ArmyBook>,
                         apply: (Unit, Option<Section>, UpgradeOption) -> Unit, build: Unit -> Unit)
    requires |saved| > 0
    requires var prev := RebuildUnitsV3(saved[..|saved| - 1], books, apply, build);
      prev.Ok? && |prev.value| == |saved| - 1
      && forall i :: 0 <= i < |saved| - 1 ==> Ok(prev.value[i]) == RebuildUnitV3(saved[..|saved| - 1][i], books, apply, build)
    requires RebuildUnitV3(saved[|saved| - 1], books, apply, build).Ok?
    ensures var r := RebuildUnitsV3(saved, books, apply, build);
      r.Ok? && |r.value| == |saved|
      && forall i :: 0 <= i < |saved| ==> Ok(r.value[i]) == RebuildUnitV3(saved[i], books, apply, build)
  {
    var prev := RebuildUnitsV3(saved[..|saved| - 1], books, apply, build).value;
    var u := RebuildUnitV3(saved[|saved| - 1], books, apply, build).value;
    assert RebuildUnitsV3(saved, books, apply, build) == Ok(prev + [u]);
    forall i | 0 <= i < |saved|
      ensures Ok((prev + [u])[i]) == RebuildUnitV3(saved[i], books, apply, build)
    {
      if i < |saved| - 1 {
        assert saved[..|saved| - 1][i] == saved[i];
      }
    }
  }

  /** Rebuilding the save record of a list whose units are all in the loaded
      books succeeds, keeps the list's fields and rebuilds every unit in order. */
  lemma SaveThenRebuildUnits(units: seq<Unit>, books: seq<ArmyBook>,
                             apply: (Unit, Option<Section>, UpgradeOption) -> Unit, build: Unit -> Unit)
    requires forall i :: 0 <= i < |units| ==> FindById(BookUnits(books), units[i].id).Some?
    requires forall i :: 0 <= i < |units| ==> ResolvesIn(units[i].selectedUpgrades, PackageSections(BookPackages(books)))
    ensures var r := RebuildUnitsV3(SaveUnits(units), books, apply, build);
      r.Ok? && |r.value| == |units|
      && forall i :: 0 <= i < |units| ==> Ok(r.value[i]) == RebuildUnitV3(SaveUnit(units[i]), books, apply, build)
  {
    var saved := SaveUnits(units);
    forall i | 0 <= i < |saved|
      ensures RebuildUnitV3(saved[i], books, apply, build).Ok?
    {
      SaveThenRebuildUnit(units[i], books, apply, build);
    }
    RebuildUnitsEach(saved, books, apply, build);
  }

  /** A fresh save of a list goes to the version 3 builder, which gives back the
      list's own fields and one rebuilt unit per saved unit. */
  lemma SaveThenRebuildList(list: ListState, books: seq<ArmyBook>,
                            apply: (Unit, Option<Section>, UpgradeOption) -> Unit, build: Unit -> Unit)
    requires forall i :: 0 <= i < |list.units| ==> FindById(BookUnits(books), list.units[i].id).Some?
    requires forall i :: 0 <= i < |list.units| ==> ResolvesIn(list.units[i].selectedUpgrades, PackageSections(BookPackages(books)))
    ensures NewSaveData(list).saveVersion == 3
    ensures var r := BuildListV3(NewSaveData(list).list, books, apply, build);
      r.Ok? && r.value == list.(units := r.value.units) && |r.value.units| == |list.units|
      && forall i :: 0 <= i < |list.units| ==> Ok(r.value.units[i]) == RebuildUnitV3(SaveUnit(list.units[i]), books, apply, build)
  {
    var saved := GetDataForSave(list);
    SaveThenRebuildUnits(list.units, books, apply, build);
    var units := RebuildUnitsV3(saved.units, books, apply, build).value;
    assert BuildListV3(saved, books, apply, build) == Ok(ListFrom(saved, units));
  }
}
