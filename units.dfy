/** Unit assembly (services/UnitService.ts): model counts, the rules a unit
    carries, fresh units from catalogue entries, combined-unit merging, the
    "full unit" aggregates, display grouping, disabled upgrade sections and
    toughness. The price of a unit comes from the upgrade service, which is not
    part of this model: it is the parameter `total`. */
module Units {
  import opened Basics
  import opened Helpers
  import opened Army

  // ---------------------------------------------------------------------------
  // Rules carried by a unit (UnitService.ts:47-69)
  // ---------------------------------------------------------------------------

  /** The gains of the selected options, in selection order. */
  function OptionGains(ups: seq<SelectedUpgrade>): seq<Gain>
  {
    if |ups| == 0 then [] else OptionGains(ups[..|ups| - 1]) + ups[|ups| - 1].option.gains
  }

  /** The "ArmyBookRule" gains among `gs`, as rules. */
  function RulesOf(gs: seq<Gain>): seq<Rule>
  {
    if |gs| == 0 then []
    else RulesOf(gs[..|gs| - 1]) + (if gs[|gs| - 1].RuleGain? then [ToRule(gs[|gs| - 1])] else [])
  }

  /** Rules and defense gains inside the items of a loadout that do not add a model. */
  function ItemContentRules(loadout: seq<Gain>): seq<Rule>
  {
    if |loadout| == 0 then []
    else
      var g := loadout[|loadout| - 1];
      ItemContentRules(loadout[..|loadout| - 1])
        + (if g.Item? && !g.isModel then RuleAndDefenseRules(g.content) else [])
  }

  function RuleAndDefenseRules(gs: seq<Gain>): seq<Rule>
  {
    if |gs| == 0 then []
    else
      RuleAndDefenseRules(gs[..|gs| - 1])
        + (if IsRuleOrDefense(gs[|gs| - 1]) then [ToRule(gs[|gs| - 1])] else [])
  }

  /** `getUpgradeRules`. */
  function GetUpgradeRules(u: Unit): seq<Rule>
  {
    RulesOf(OptionGains(u.selectedUpgrades))
  }

  /** `getAllUpgradedRules`. */
  function GetAllUpgradedRules(u: Unit): seq<Rule>
  {
    GetUpgradeRules(u) + ItemContentRules(u.loadout)
  }

  /** `getAllRules`. */
  function GetAllRules(u: Unit): seq<Rule>
  {
    u.specialRules + GetAllUpgradedRules(u)
  }

  lemma {:induction false} OptionGainsMembership(ups: seq<SelectedUpgrade>, g: Gain)
    ensures g in OptionGains(ups) <==> exists i :: 0 <= i < |ups| && g in ups[i].option.gains
  {
    if |ups| > 0 {
      OptionGainsMembership(ups[..|ups| - 1], g);
      var init := ups[..|ups| - 1];
      if exists i :: 0 <= i < |ups| && g in ups[i].option.gains {
        var i :| 0 <= i < |ups| && g in ups[i].option.gains;
        if i < |ups| - 1 { assert init[i] == ups[i]; }
      }
      if exists i :: 0 <= i < |init| && g in init[i].option.gains {
        var i :| 0 <= i < |init| && g in init[i].option.gains;
        assert ups[i] == init[i];
      }
    }
  }

  lemma {:induction false} RulesOfMembership(gs: seq<Gain>, r: Rule)
    ensures r in RulesOf(gs) <==> exists g :: g in gs && g.RuleGain? && ToRule(g) == r
  {
    if |gs| > 0 {
      RulesOfMembership(gs[..|gs| - 1], r);
      assert gs == gs[..|gs| - 1] + [gs[|gs| - 1]];
    }
  }

  lemma {:induction false} RuleAndDefenseRulesMembership(gs: seq<Gain>, r: Rule)
    ensures r in RuleAndDefenseRules(gs) <==> exists g :: g in gs && IsRuleOrDefense(g) && ToRule(g) == r
  {
    if |gs| > 0 {
      RuleAndDefenseRulesMembership(gs[..|gs| - 1], r);
      assert gs == gs[..|gs| - 1] + [gs[|gs| - 1]];
    }
  }

  lemma {:induction false} ItemContentRulesMembership(loadout: seq<Gain>, r: Rule)
    ensures r in ItemContentRules(loadout) <==>
              exists it :: it in loadout && it.Item? && !it.isModel && r in RuleAndDefenseRules(it.content)
  {
    if |loadout| > 0 {
      ItemContentRulesMembership(loadout[..|loadout| - 1], r);
      assert loadout == loadout[..|loadout| - 1] + [loadout[|loadout| - 1]];
    }
  }

  /** A rule is among a unit's upgraded rules exactly when a selected option grants
      it as a rule gain, or an item of the loadout that adds no model contains it
      as a rule or defense gain. */
  lemma UpgradedRulesMembership(u: Unit, r: Rule)
    ensures r in GetAllUpgradedRules(u) <==>
              (exists i, g :: 0 <= i < |u.selectedUpgrades| && g in u.selectedUpgrades[i].option.gains
                               && g.RuleGain? && ToRule(g) == r)
              || (exists it, g :: it in u.loadout && it.Item? && !it.isModel && g in it.content
                                && IsRuleOrDefense(g) && ToRule(g) == r)
  {
    RulesOfMembership(OptionGains(u.selectedUpgrades), r);
    ItemContentRulesMembership(u.loadout, r);
    forall g ensures g in OptionGains(u.selectedUpgrades) <==>
                     exists i :: 0 <= i < |u.selectedUpgrades| && g in u.selectedUpgrades[i].option.gains {
      OptionGainsMembership(u.selectedUpgrades, g);
    }
    forall it | it in u.loadout && it.Item?
      ensures r in RuleAndDefenseRules(it.content) <==>
                exists g :: g in it.content && IsRuleOrDefense(g) && ToRule(g) == r {
      RuleAndDefenseRulesMembership(it.content, r);
    }
  }

  // ---------------------------------------------------------------------------
  // Model count (UnitService.ts:71-74)
  // ---------------------------------------------------------------------------

  /** Number of selected options that add a model. */
  function ExtraModels(ups: seq<SelectedUpgrade>): nat
  {
    if |ups| == 0 then 0
    else ExtraModels(ups[..|ups| - 1]) + (if ups[|ups| - 1].option.isModel then 1 else 0)
  }

  /** `getSize`: the unit's own size plus one model per model-adding option. */
  function GetSize(u: Unit): (n: nat)
    ensures n >= u.size
    ensures n == u.size + |Filter(u.selectedUpgrades, AddsModel)|
  {
    ExtraModelsIsFilterSize(u.selectedUpgrades);
    u.size + ExtraModels(u.selectedUpgrades)
  }

  predicate AddsModel(su: SelectedUpgrade) {
    su.option.isModel
  }

  lemma {:induction false} ExtraModelsIsFilterSize(ups: seq<SelectedUpgrade>)
    ensures ExtraModels(ups) == |Filter(ups, AddsModel)|
  {
    if |ups| > 0 {
      ExtraModelsIsFilterSize(ups[..|ups| - 1]);
    }
  }

  lemma {:induction false} ExtraModelsConcat(a: seq<SelectedUpgrade>, b: seq<SelectedUpgrade>)
    ensures ExtraModels(a + b) == ExtraModels(a) + ExtraModels(b)
    decreases |b|
  {
    if |b| == 0 {
      assert a + b == a;
    } else {
      assert (a + b)[..|a + b| - 1] == a + b[..|b| - 1];
      ExtraModelsConcat(a, b[..|b| - 1]);
    }
  }

  // ---------------------------------------------------------------------------
  // Fresh units and combined units (UnitService.ts:76-104)
  // ---------------------------------------------------------------------------

  /** `count: eqp.count || unit.size`. */
  function DefaultCount(e: Gain, size: nat): (e': Gain)
    ensures e'.count == (if e.count == 0 then size else e.count)
  {
    e.(count := if e.count == 0 then size else e.count)
  }

  /** `createUnitFromDefinition`; the random selection id is a parameter. */
  function CreateUnitFromDefinition(def: Unit, selectionId: string): (u: Unit)
    ensures u.selectionId == selectionId
    ensures u.selectedUpgrades == [] && u.loadout == [] && u.traits == []
    ensures !u.combined && u.joinToUnit == None && u.xp == 0 && u.notes == None
    ensures u.id == def.id && u.name == def.name && u.size == def.size && u.cost == def.cost
    ensures u.specialRules == def.specialRules && u.upgrades == def.upgrades && u.sortId == def.sortId
    ensures u.armyId == def.armyId && u.customName == def.customName && u.quality == def.quality
    ensures u.defense == def.defense && u.disabledUpgradeSections == def.disabledUpgradeSections
    ensures |u.equipment| == |def.equipment|
    ensures forall i :: 0 <= i < |u.equipment| ==>
              u.equipment[i] == def.equipment[i].(count := u.equipment[i].count)
              && u.equipment[i].count == (if def.equipment[i].count == 0 then def.size else def.equipment[i].count)
  {
    def.(
      selectionId := selectionId,
      selectedUpgrades := [],
      combined := false,
      joinToUnit := None,
      equipment := seq(|def.equipment|, i requires 0 <= i < |def.equipment| => DefaultCount(def.equipment[i], def.size)),
      loadout := [],
      xp := 0,
      traits := [],
      notes := None)
  }

  /** A fresh unit has exactly the catalogue size, and every piece of equipment
      of a unit with models is counted. */
  lemma CreatedUnitSize(def: Unit, selectionId: string)
    ensures GetSize(CreateUnitFromDefinition(def, selectionId)) == def.size
    ensures def.size > 0 ==> forall e :: e in CreateUnitFromDefinition(def, selectionId).equipment ==> e.count > 0
  {
  }

  /** `mergeCombinedUnit`. */
  function MergeCombinedUnit(unit: Unit, attached: Option<Unit>): (m: Unit)
    ensures attached.None? ==> m == unit
    ensures attached.Some? ==>
              m == unit.(size := unit.size + attached.value.size,
                         loadout := unit.loadout + attached.value.loadout,
                         selectedUpgrades := unit.selectedUpgrades + attached.value.selectedUpgrades)
  {
    match attached
    case None => unit
    case Some(a) =>
      unit.(size := unit.size + a.size,
            loadout := unit.loadout + a.loadout,
            selectedUpgrades := unit.selectedUpgrades + a.selectedUpgrades)
  }

  /** A merged pair counts the models of both units. */
  lemma MergedSize(unit: Unit, partner: Unit)
    ensures GetSize(MergeCombinedUnit(unit, Some(partner))) == GetSize(unit) + GetSize(partner)
  {
    ExtraModelsConcat(unit.selectedUpgrades, partner.selectedUpgrades);
  }

  // ---------------------------------------------------------------------------
  // Item rules for the text export (UnitService.ts:106-124)
  // ---------------------------------------------------------------------------

  datatype ItemRules = ItemRules(count: Option<nat>, name: string, specialRules: seq<Rule>)

  function ItemName(g: Gain): string { g.name }

  /** `x.count || 1`, summed. */
  function ItemCount(group: seq<Gain>): nat
  {
    if |group| == 0 then 0
    else ItemCount(group[..|group| - 1]) + (if group[|group| - 1].count == 0 then 1 else group[|group| - 1].count)
  }

  /** The first selected upgrade whose option grants a gain named `name`. */
  function FirstGranting(ups: seq<SelectedUpgrade>, name: string): Option<SelectedUpgrade>
  {
    if |ups| == 0 then None
    else if exists g :: g in ups[0].option.gains && g.name == name then Some(ups[0])
    else FirstGranting(ups[1..], name)
  }

  function ItemRulesOf(unit: Unit, group: seq<Gain>, key: string): (r: ItemRules)
    ensures r.name == key
  {
    if |group| == 0 then ItemRules(Some(0), key, [])
    else
      var item := group[0];
      var content := if item.Item? then item.content else [];
      var found := FirstGranting(unit.selectedUpgrades, item.name);
      var affectsAll := found.Some? && found.value.upgrade.affects == AffectsAll;
      ItemRules(if affectsAll then None else Some(ItemCount(group)), key, RuleAndDefenseRules(content))
  }

  /** `getItemRules`: one entry per item name. */
  function GetItemRules(unit: Unit, items: seq<Gain>): (r: seq<ItemRules>)
    ensures |r| == |KeyOrder(items, ItemName)|
  {
    GroupMap(items, ItemName, (group, key) => ItemRulesOf(unit, group, key))
  }

  // ---------------------------------------------------------------------------
  // Full units (UnitService.ts:125-161)
  // ---------------------------------------------------------------------------

  /** A root unit with what is attached to it, and three size/point aggregates. */
  datatype FullUnit = FullUnit(
    unitSize: nat,
    unitPoints: nat,
    unitPointsAll: nat,
    unit: Unit,
    joined: Option<Unit>,
    heroes: seq<Unit>,
    hasJoined: bool)

  function Roots(input: seq<Unit>): seq<Unit>
  {
    Filter(input, IsRoot)
  }

  /** The units whose join target is `root`. */
  function Attached(input: seq<Unit>, root: Unit): seq<Unit>
  {
    Filter(input, JoinsTo(root.selectionId))
  }

  /** `u.joinToUnit === selectionId`. */
  function JoinsTo(selectionId: string): Unit -> bool
  {
    (u: Unit) => u.joinToUnit == Some(selectionId)
  }

  function SumSizes(us: seq<Unit>): nat
  {
    if |us| == 0 then 0 else SumSizes(us[..|us| - 1]) + GetSize(us[|us| - 1])
  }

  function SumTotals(us: seq<Unit>, total: Unit -> nat): nat
  {
    if |us| == 0 then 0 else SumTotals(us[..|us| - 1], total) + total(us[|us| - 1])
  }

  function First<T>(s: seq<T>): (r: Option<T>)
    ensures r.Some? <==> |s| > 0
  {
    if |s| == 0 then None else Some(s[0])
  }

  /** The entry `getFullUnitList` builds for one root unit. */
  function FullUnitOf(input: seq<Unit>, root: Unit, combine: bool, total: Unit -> nat): (f: FullUnit)
    ensures f.hasJoined <==> |Attached(input, root)| > 0
    ensures f.unitSize >= GetSize(root) && f.unitPoints >= total(root) && f.unitPointsAll >= total(root)
    ensures forall h :: h in f.heroes ==> h in input && IsHero(h)
  {
    var attached := Attached(input, root);
    var heroes := Filter(attached, IsHero);
    var joined := Filter(attached, IsNotHero);
    FullUnit(
      GetSize(root) + SumSizes(joined),
      total(root) + SumTotals(joined, total),
      total(root) + SumTotals(attached, total),
      if combine then MergeCombinedUnit(root, First(joined)) else root,
      First(joined),
      heroes,
      |attached| > 0)
  }

  function EntrySortId(f: FullUnit): int { f.unit.sortId }

  /** `getFullUnitList`: one entry per root unit, sorted by catalogue position. */
  /** One entry per root unit, in list order, before sorting. */
  function RootEntries(input: seq<Unit>, combine: bool, total: Unit -> nat): seq<FullUnit>
  {
    var roots := Roots(input);
    seq(|roots|, i requires 0 <= i < |roots| => FullUnitOf(input, roots[i], combine, total))
  }

  function GetFullUnitList(input: seq<Unit>, combine: bool, total: Unit -> nat): (r: seq<FullUnit>)
    ensures |r| == |Roots(input)|
  {
    SortBy(RootEntries(input, combine, total), EntrySortId)
  }

  lemma {:induction false} SumTotalsPartition(xs: seq<Unit>, p: Unit -> bool, q: Unit -> bool, total: Unit -> nat)
    requires forall x :: q(x) == !p(x)
    ensures SumTotals(Filter(xs, p), total) + SumTotals(Filter(xs, q), total) == SumTotals(xs, total)
  {
    if |xs| > 0 {
      var init, last := xs[..|xs| - 1], xs[|xs| - 1];
      SumTotalsPartition(init, p, q, total);
      SumTotalsFilterStep(xs, p, total);
      SumTotalsFilterStep(xs, q, total);
    }
  }

  lemma SumTotalsFilterStep(xs: seq<Unit>, p: Unit -> bool, total: Unit -> nat)
    requires |xs| > 0
    ensures SumTotals(Filter(xs, p), total)
         == SumTotals(Filter(xs[..|xs| - 1], p), total) + (if p(xs[|xs| - 1]) then total(xs[|xs| - 1]) else 0)
  {
    var f, last := Filter(xs[..|xs| - 1], p), xs[|xs| - 1];
    if p(last) {
      assert (f + [last])[..|f|] == f;
    } else {
      assert f + [] == f;
    }
  }

  /** What one entry holds: its attached units split into heroes and combine
      partners with nothing lost, `hasJoined` exactly when something is attached,
      and the points of the whole group are the combined-unit points plus the
      heroes' points. */
  lemma FullUnitOfProperties(input: seq<Unit>, root: Unit, combine: bool, total: Unit -> nat)
    ensures var f := FullUnitOf(input, root, combine, total);
      && (f.hasJoined <==> exists u :: u in input && u.joinToUnit == Some(root.selectionId))
      && (forall h :: h in f.heroes <==> h in input && h.joinToUnit == Some(root.selectionId) && IsHero(h))
      && (f.joined.Some? ==> f.joined.value in input && f.joined.value.joinToUnit == Some(root.selectionId)
                              && !IsHero(f.joined.value))
      && multiset(f.heroes) + multiset(Filter(Attached(input, root), IsNotHero)) == multiset(Attached(input, root))
      && f.unitPointsAll == f.unitPoints + SumTotals(f.heroes, total)
      && f.unitPoints <= f.unitPointsAll
      && f.unitPoints >= total(root) && f.unitSize >= GetSize(root)
  {
    var attached := Attached(input, root);
    var p := JoinsTo(root.selectionId);
    forall u ensures u in attached <==> u in input && u.joinToUnit == Some(root.selectionId) {
      FilterMembership(input, p, u);
    }
    forall h ensures h in Filter(attached, IsHero) <==> h in attached && IsHero(h) {
      FilterMembership(attached, IsHero, h);
    }
    var joined := Filter(attached, IsNotHero);
    if |joined| > 0 {
      assert joined[0] in joined;
    }
    if |attached| > 0 {
      assert attached[0] in attached;
    }
    FilterPartition(attached, IsHero, IsNotHero);
    SumTotalsPartition(attached, IsHero, IsNotHero, total);
  }

  /** With combining, the entry's unit is the root merged with its (single)
      combine partner, and then its model count is the entry's unit size. */
  lemma CombinedEntrySize(input: seq<Unit>, root: Unit, total: Unit -> nat)
    requires |Filter(Attached(input, root), IsNotHero)| <= 1
    ensures GetSize(FullUnitOf(input, root, true, total).unit) == FullUnitOf(input, root, true, total).unitSize
  {
    var joined := Filter(Attached(input, root), IsNotHero);
    if |joined| == 1 {
      MergedSize(root, joined[0]);
      SingleSumSizes(joined);
    }
  }

  lemma SingleSumSizes(us: seq<Unit>)
    requires |us| == 1
    ensures SumSizes(us) == GetSize(us[0])
  {
    assert us[..0] == [];
  }

  /** The full-unit list has exactly one entry per root unit (the entries of the
      roots, rearranged), ordered by catalogue position; entries of the same
      catalogue position keep list order. */
  lemma FullUnitListShape(input: seq<Unit>, combine: bool, total: Unit -> nat)
    ensures |GetFullUnitList(input, combine, total)| == |Roots(input)|
    ensures multiset(GetFullUnitList(input, combine, total)) == multiset(RootEntries(input, combine, total))
    ensures forall i :: 0 <= i < |Roots(input)| ==>
              RootEntries(input, combine, total)[i] == FullUnitOf(input, Roots(input)[i], combine, total)
    ensures SortedBy(GetFullUnitList(input, combine, total), EntrySortId)
    ensures forall k :: WithKey(GetFullUnitList(input, combine, total), EntrySortId, k) ==
                        WithKey(RootEntries(input, combine, total), EntrySortId, k)
    ensures forall f :: f in GetFullUnitList(input, combine, total) ==>
              exists r :: r in input && IsRoot(r) && f == FullUnitOf(input, r, combine, total)
  {
    var entries := RootEntries(input, combine, total);
    SortByProperties(entries, EntrySortId);
    forall f | f in GetFullUnitList(input, combine, total)
      ensures exists r :: r in input && IsRoot(r) && f == FullUnitOf(input, r, combine, total)
    {
      assert f in multiset(entries);
      RootEntryOfRoot(input, combine, total, f);
    }
  }

  lemma RootEntryOfRoot(input: seq<Unit>, combine: bool, total: Unit -> nat, f: FullUnit)
    requires f in RootEntries(input, combine, total)
    ensures exists r :: r in input && IsRoot(r) && f == FullUnitOf(input, r, combine, total)
  {
    var roots := Roots(input);
    var i :| 0 <= i < |roots| && RootEntries(input, combine, total)[i] == f;
    assert roots[i] in roots;
  }

  // ---------------------------------------------------------------------------
  // Display grouping (UnitService.ts:163-188)
  // ---------------------------------------------------------------------------

  /** The identity a display row is grouped by. The source's in-place sort of the
      selections and the loadout (with an inconsistent comparator) is replaced by
      the multisets it is meant to canonicalise. */
  datatype DisplayKey = DisplayKey(
    heroBreaker: Option<nat>,
    id: string,
    customName: Option<string>,
    joinToUnit: Option<string>,
    upgrades: multiset<(string, string)>,
    loadout: multiset<(string, nat)>,
    traits: seq<string>,
    xp: nat)

  /** The key of entry number `index`; an entry with attached units gets its own
      position as tie-breaker. */
  function KeyOf(entry: (nat, FullUnit)): DisplayKey
  {
    var (index, f) := entry;
    var u := f.unit;
    DisplayKey(
      if f.hasJoined then Some(index) else None,
      u.id,
      u.customName,
      u.joinToUnit,
      multiset(seq(|u.selectedUpgrades|, i requires 0 <= i < |u.selectedUpgrades| =>
        (u.selectedUpgrades[i].upgrade.uid, u.selectedUpgrades[i].option.id))),
      multiset(seq(|u.loadout|, i requires 0 <= i < |u.loadout| => (u.loadout[i].id, u.loadout[i].count))),
      u.traits,
      u.xp)
  }

  function Indexed(input: seq<FullUnit>): (r: seq<(nat, FullUnit)>)
    ensures |r| == |input|
    ensures forall i :: 0 <= i < |r| ==> r[i] == (i, input[i])
  {
    seq(|input|, i requires 0 <= i < |input| => (i, input[i]))
  }

  /** The groups of `getGroupedDisplayUnits`, each entry tagged with its position. */
  function GroupedDisplayEntries(input: seq<FullUnit>): seq<seq<(nat, FullUnit)>>
  {
    Groups(Indexed(input), KeyOf)
  }

  function Untag(g: seq<(nat, FullUnit)>): (r: seq<FullUnit>)
    ensures |r| == |g|
  {
    seq(|g|, k requires 0 <= k < |g| => g[k].1)
  }

  /** `getGroupedDisplayUnits`, read back in `Object.keys` order. */
  function GetGroupedDisplayUnits(input: seq<FullUnit>): (r: seq<seq<FullUnit>>)
    ensures |r| == |GroupedDisplayEntries(input)|
  {
    var gs := GroupedDisplayEntries(input);
    seq(|gs|, j requires 0 <= j < |gs| => Untag(gs[j]))
  }

  /** When exactly one element has key `k`, its bucket is that element alone. */
  lemma {:induction false} BucketOfUniqueKey<T, K>(xs: seq<T>, key: T -> K, k: K, m: nat)
    requires m < |xs| && key(xs[m]) == k
    requires forall i :: 0 <= i < |xs| && i != m ==> key(xs[i]) != k
    ensures Bucket(xs, key, k) == [xs[m]]
  {
    var init := xs[..|xs| - 1];
    if m < |xs| - 1 {
      BucketOfUniqueKey(init, key, k, m);
    } else {
      forall i | 0 <= i < |init| ensures key(init[i]) != k {
        assert init[i] == xs[i];
      }
      BucketOfAbsentKey(init, key, k);
    }
  }

  /** Every entry lands in exactly one group, and a group holds entries of the
      input, each tagged with its own position. */
  lemma DisplayGroupsCover(input: seq<FullUnit>)
    ensures forall i :: 0 <= i < |input| ==>
              exists j :: 0 <= j < |GroupedDisplayEntries(input)| && (i, input[i]) in GroupedDisplayEntries(input)[j]
    ensures forall i, j1, j2 ::
              (0 <= i < |input| && 0 <= j1 < j2 < |GroupedDisplayEntries(input)|
               && (i, input[i]) in GroupedDisplayEntries(input)[j1])
              ==> (i, input[i]) !in GroupedDisplayEntries(input)[j2]
    ensures forall j, e: (nat, FullUnit) :: 0 <= j < |GroupedDisplayEntries(input)| && e in GroupedDisplayEntries(input)[j] ==>
              e.0 < |input| && e.1 == input[e.0]
  {
    var xs := Indexed(input);
    var gs := GroupedDisplayEntries(input);
    GroupsPartition(xs, KeyOf);
    forall i | 0 <= i < |input| ensures exists j :: 0 <= j < |gs| && (i, input[i]) in gs[j] {
      assert xs[i] in xs;
    }
    forall j, e: (nat, FullUnit) | 0 <= j < |gs| && e in gs[j] ensures e.0 < |input| && e.1 == input[e.0] {
      var k :| 0 <= k < |xs| && xs[k] == e;
    }
  }

  /** An entry with attached units (a hero or a combine partner) is alone in its group. */
  lemma DisplayGroupOfJoinedEntry(input: seq<FullUnit>, j: nat, i: nat)
    requires j < |GroupedDisplayEntries(input)| && i < |input| && input[i].hasJoined
    requires (i, input[i]) in GroupedDisplayEntries(input)[j]
    ensures GroupedDisplayEntries(input)[j] == [(i, input[i])]
  {
    var xs := Indexed(input);
    var gs := GroupedDisplayEntries(input);
    var ks := KeyOrder(xs, KeyOf);
    var k := KeyOf((i, input[i]));
    BucketMembership(xs, KeyOf, ks[j], (i, input[i]));
    assert k == ks[j];
    forall m | 0 <= m < |xs| && m != i ensures KeyOf(xs[m]) != k {
      if input[m].hasJoined {
        assert KeyOf(xs[m]).heroBreaker == Some(m);
      }
    }
    BucketOfUniqueKey(xs, KeyOf, k, i);
  }

  /** Two entries sharing a group agree on catalogue id, custom name, join
      target, selections, loadout, traits and experience. */
  lemma DisplayGroupAgrees(input: seq<FullUnit>, j: nat, a: (nat, FullUnit), b: (nat, FullUnit))
    requires j < |GroupedDisplayEntries(input)|
    requires a in GroupedDisplayEntries(input)[j] && b in GroupedDisplayEntries(input)[j]
    ensures a.1.unit.id == b.1.unit.id && a.1.unit.customName == b.1.unit.customName
    ensures a.1.unit.joinToUnit == b.1.unit.joinToUnit && a.1.unit.traits == b.1.unit.traits
    ensures a.1.unit.xp == b.1.unit.xp
    ensures KeyOf(a).upgrades == KeyOf(b).upgrades && KeyOf(a).loadout == KeyOf(b).loadout
  {
    var xs := Indexed(input);
    var ks := KeyOrder(xs, KeyOf);
    BucketMembership(xs, KeyOf, ks[j], a);
    BucketMembership(xs, KeyOf, ks[j], b);
  }

  // ---------------------------------------------------------------------------
  // Disabled upgrade sections (UnitService.ts:190-240)
  // ---------------------------------------------------------------------------

  /** JavaScript's `\s`: ASCII blanks, no-break space, the Unicode space
      separators, line and paragraph separators and the byte-order mark. */
  predicate IsWhitespace(c: char) {
    c == ' ' || c == '\t' || c == '\n' || c == '\r' || c == '\U{000B}' || c == '\U{000C}'
    || c == '\U{00A0}' || c == '\U{1680}' || ('\U{2000}' <= c <= '\U{200A}') || c == '\U{2028}'
    || c == '\U{2029}' || c == '\U{202F}' || c == '\U{205F}' || c == '\U{3000}' || c == '\U{FEFF}'
  }

  /** `s.replace(/^(\d+)x\s/, "")`: drops a leading count such as "2x ". */
  function StripCount(s: string): (r: string)
    ensures |r| <= |s| && r == s[|s| - |r|..]
  {
    var k := LeadingDigits(s);
    if k > 0 && k + 1 < |s| && s[k] == 'x' && IsWhitespace(s[k + 1]) then s[k + 2..] else s
  }

  /** A leading count in front of a name is removed, and only that. */
  lemma StripCountOfCountedName(n: nat, name: string)
    ensures StripCount(NatToString(n) + "x " + name) == name
  {
    var d := NatToString(n);
    assert d + "x " + name == d + ("x " + name);
    StripCountAfterDigits(d, name);
  }

  lemma StripCountAfterDigits(d: string, name: string)
    requires |d| > 0 && forall i :: 0 <= i < |d| ==> IsDigit(d[i])
    ensures StripCount(d + ("x " + name)) == name
  {
    var t := "x " + name;
    var s := d + t;
    LeadingDigitsOfDigitsThen(d, t);
    assert s[|d|] == t[0] == 'x' && s[|d| + 1] == t[1] == ' ';
    assert s[|d| + 2..] == t[2..] == name;
  }

  /** A name that does not start with a digit is kept as it is. */
  lemma StripCountOfPlainName(name: string)
    requires |name| == 0 || !IsDigit(name[0])
    ensures StripCount(name) == name
  {
  }

  /** Packages of `u.upgrades`, each the first package with that uid; missing ones dropped. */
  function PackagesForUnit(upgradeIds: seq<string>, pkgs: seq<Package>): seq<Package>
  {
    if |upgradeIds| == 0 then []
    else
      PackagesForUnit(upgradeIds[..|upgradeIds| - 1], pkgs)
        + (match FindPackage(pkgs, upgradeIds[|upgradeIds| - 1]) case Some(p) => [p] case None => [])
  }

  function FindPackage(pkgs: seq<Package>, uid: string): (r: Option<Package>)
    ensures r.Some? ==> r.value in pkgs && r.value.uid == uid
    ensures r.None? ==> forall p :: p in pkgs ==> p.uid != uid
    ensures r.Some? ==> exists i :: 0 <= i < |pkgs| && pkgs[i] == r.value && forall j :: 0 <= j < i ==> pkgs[j].uid != uid
  {
    if |pkgs| == 0 then None
    else if pkgs[0].uid == uid then Some(pkgs[0])
    else FindPackage(pkgs[1..], uid)
  }

  function SectionsOf(pkgs: seq<Package>): seq<Section>
  {
    if |pkgs| == 0 then [] else SectionsOf(pkgs[..|pkgs| - 1]) + pkgs[|pkgs| - 1].sections
  }

  function OptionsOf(sections: seq<Section>): seq<UpgradeOption>
  {
    if |sections| == 0 then [] else OptionsOf(sections[..|sections| - 1]) + sections[|sections| - 1].options
  }

  /** Every gain of the options, each followed by the content when it is an item. */
  function ReachableGains(options: seq<UpgradeOption>): seq<Gain>
  {
    if |options| == 0 then [] else ReachableGains(options[..|options| - 1]) + GainsWithContent(options[|options| - 1].gains)
  }

  function GainsWithContent(gs: seq<Gain>): seq<Gain>
  {
    if |gs| == 0 then []
    else
      var g := gs[|gs| - 1];
      GainsWithContent(gs[..|gs| - 1]) + [g] + (if g.Item? then g.content else [])
  }

  /** `e.label ?? e.name` with a leading count removed, as the label of `e`. */
  function StrippedLabel(e: Gain): Gain
  {
    e.(labelText := Some(StripCount(match e.labelText case Some(l) => l case None => e.name)))
  }

  /** `equipment.some(e => compareEquipment({...e, label: stripped}, target))`. */
  predicate EquipmentProvides(equipment: seq<Gain>, target: string, matches: (Gain, string) -> bool)
  {
    exists i :: 0 <= i < |equipment| && matches(StrippedLabel(equipment[i]), target)
  }

  /** `allGains.some(g => compareEquipment(g, target))`. */
  predicate GainsProvide(gains: seq<Gain>, target: string, matches: (Gain, string) -> bool)
  {
    exists j :: 0 <= j < |gains| && matches(gains[j], target)
  }

  /** The unit can reach `target`: in its base equipment or among the gains of its packages. */
  predicate TargetAvailable(equipment: seq<Gain>, gains: seq<Gain>, target: string, matches: (Gain, string) -> bool)
  {
    EquipmentProvides(equipment, target, matches) || GainsProvide(gains, target, matches)
  }

  /** One `uid` per target of the section that the unit cannot reach. */
  function MissingTargets(equipment: seq<Gain>, gains: seq<Gain>, uid: string, targets: seq<string>,
                          matches: (Gain, string) -> bool): seq<string>
  {
    if |targets| == 0 then []
    else
      MissingTargets(equipment, gains, uid, targets[..|targets| - 1], matches)
        + (if TargetAvailable(equipment, gains, StripCount(targets[|targets| - 1]), matches) then [] else [uid])
  }

  function DisabledAmong(equipment: seq<Gain>, gains: seq<Gain>, sections: seq<Section>,
                         matches: (Gain, string) -> bool): seq<string>
  {
    if |sections| == 0 then []
    else
      DisabledAmong(equipment, gains, sections[..|sections| - 1], matches)
        + SectionReport(equipment, gains, sections[|sections| - 1], matches)
  }

  /** What one section contributes: nothing unless it replaces something. */
  function SectionReport(equipment: seq<Gain>, gains: seq<Gain>, s: Section, matches: (Gain, string) -> bool): seq<string>
  {
    match s.replaceWhat
    case None => []
    case Some(targets) => MissingTargets(equipment, gains, s.uid, targets, matches)
  }

  /** What `getDisabledUpgradeSections` returns; `matches` is the equipment
      service's name comparison, which is not part of this model. */
  function DisabledUpgradeSections(u: Unit, pkgs: seq<Package>, matches: (Gain, string) -> bool): seq<string>
  {
    var sections := SectionsOf(PackagesForUnit(u.upgrades, pkgs));
    DisabledAmong(u.equipment, ReachableGains(OptionsOf(sections)), sections, matches)
  }

  /** The inner loop of `getDisabledUpgradeSections`: the section's uid once per
      target that neither the equipment nor the reachable gains provide. */
  method ReportMissingTargets(equipment: seq<Gain>, allGains: seq<Gain>, uid: string, targets: seq<string>,
                              matches: (Gain, string) -> bool)
    returns (missing: seq<string>)
    ensures missing == MissingTargets(equipment, allGains, uid, targets, matches)
  {
    missing := [];
    for j := 0 to |targets|
      invariant missing == MissingTargets(equipment, allGains, uid, targets[..j], matches)
    {
      assert targets[..j + 1][..j] == targets[..j];
      var target := StripCount(targets[j]);
      var equipmentMatch := EquipmentProvides(equipment, target, matches);
      if !equipmentMatch {
        var upgradeGains := GainsProvide(allGains, target, matches);
        if !upgradeGains {
          missing := missing + [uid];
        }
      }
    }
    assert targets[..|targets|] == targets;
  }

  /** `getDisabledUpgradeSections`: loops over the sections of the unit's
      packages, pushing a replacing section's uid for every target out of reach. */
  method GetDisabledUpgradeSections(u: Unit, pkgs: seq<Package>, matches: (Gain, string) -> bool)
    returns (disabledSections: seq<string>)
    ensures disabledSections == DisabledUpgradeSections(u, pkgs, matches)
  {
    var sections := SectionsOf(PackagesForUnit(u.upgrades, pkgs));
    var allGains := ReachableGains(OptionsOf(sections));
    disabledSections := [];
    for i := 0 to |sections|
      invariant disabledSections == DisabledAmong(u.equipment, allGains, sections[..i], matches)
    {
      var section := sections[i];
      var missing: seq<string> := [];
      if section.replaceWhat.Some? {
        missing := ReportMissingTargets(u.equipment, allGains, section.uid, section.replaceWhat.value, matches);
      }
      DisabledAmongStep(u.equipment, allGains, sections, i, matches);
      disabledSections := disabledSections + missing;
    }
    assert sections[..|sections|] == sections;
  }

  lemma DisabledAmongStep(equipment: seq<Gain>, gains: seq<Gain>, sections: seq<Section>, i: nat,
                          matches: (Gain, string) -> bool)
    requires i < |sections|
    ensures DisabledAmong(equipment, gains, sections[..i + 1], matches)
            == DisabledAmong(equipment, gains, sections[..i], matches) + SectionReport(equipment, gains, sections[i], matches)
  {
    assert sections[..i + 1][..i] == sections[..i];
  }

  lemma {:induction false} MissingTargetsMembership(equipment: seq<Gain>, gains: seq<Gain>, uid: string,
                                                   targets: seq<string>, matches: (Gain, string) -> bool, x: string)
    ensures x in MissingTargets(equipment, gains, uid, targets, matches) <==>
              x == uid && exists t :: t in targets && !TargetAvailable(equipment, gains, StripCount(t), matches)
  {
    if |targets| > 0 {
      MissingTargetsMembership(equipment, gains, uid, targets[..|targets| - 1], matches, x);
      UnreachableLast(equipment, gains, targets, matches);
    }
  }

  lemma UnreachableLast(equipment: seq<Gain>, gains: seq<Gain>, targets: seq<string>, matches: (Gain, string) -> bool)
    requires |targets| > 0
    ensures (exists t :: t in targets && !TargetAvailable(equipment, gains, StripCount(t), matches)) <==>
      (exists t :: t in targets[..|targets| - 1] && !TargetAvailable(equipment, gains, StripCount(t), matches))
      || !TargetAvailable(equipment, gains, StripCount(targets[|targets| - 1]), matches)
  {
    assert targets == targets[..|targets| - 1] + [targets[|targets| - 1]];
  }

  /** Section `s` reports as `x`: its uid is `x` and it replaces a target that
      the unit cannot reach. */
  predicate SectionReports(equipment: seq<Gain>, gains: seq<Gain>, s: Section, matches: (Gain, string) -> bool, x: string)
  {
    s.uid == x && s.replaceWhat.Some?
    && exists t :: t in s.replaceWhat.value && !TargetAvailable(equipment, gains, StripCount(t), matches)
  }

  lemma SectionReportMembership(equipment: seq<Gain>, gains: seq<Gain>, s: Section, matches: (Gain, string) -> bool, x: string)
    ensures x in SectionReport(equipment, gains, s, matches) <==> SectionReports(equipment, gains, s, matches, x)
  {
    if s.replaceWhat.Some? {
      MissingTargetsMembership(equipment, gains, s.uid, s.replaceWhat.value, matches, x);
    }
  }

  function ReportsAs(equipment: seq<Gain>, gains: seq<Gain>, matches: (Gain, string) -> bool, x: string): Section -> bool
  {
    (s: Section) => SectionReports(equipment, gains, s, matches, x)
  }

  lemma {:induction false} DisabledAmongMembership(equipment: seq<Gain>, gains: seq<Gain>, sections: seq<Section>,
                                                  matches: (Gain, string) -> bool, x: string)
    ensures x in DisabledAmong(equipment, gains, sections, matches) <==>
              exists s :: s in sections && SectionReports(equipment, gains, s, matches, x)
  {
    if |sections| > 0 {
      DisabledAmongMembership(equipment, gains, sections[..|sections| - 1], matches, x);
      SectionReportMembership(equipment, gains, sections[|sections| - 1], matches, x);
      ExistsLast(sections, ReportsAs(equipment, gains, matches, x));
    }
  }

  /** A section is reported exactly when it names replacement targets and one of
      them (with its leading count removed) is neither in the unit's equipment nor
      among the gains its packages can grant. */
  lemma DisabledUpgradeSectionsMembership(u: Unit, pkgs: seq<Package>, matches: (Gain, string) -> bool, x: string)
    ensures var sections := SectionsOf(PackagesForUnit(u.upgrades, pkgs));
      x in DisabledUpgradeSections(u, pkgs, matches) <==>
        exists s :: s in sections && SectionReports(u.equipment, ReachableGains(OptionsOf(sections)), s, matches, x)
  {
    var sections := SectionsOf(PackagesForUnit(u.upgrades, pkgs));
    DisabledAmongMembership(u.equipment, ReachableGains(OptionsOf(sections)), sections, matches, x);
  }

  /** `t => !TargetAvailable(...)` over raw targets. */
  function Unreachable(equipment: seq<Gain>, gains: seq<Gain>, matches: (Gain, string) -> bool): string -> bool
  {
    t => !TargetAvailable(equipment, gains, StripCount(t), matches)
  }

  /** A section is reported once per unreachable target, so twice when two are missing. */
  lemma {:induction false} MissingTargetsCount(equipment: seq<Gain>, gains: seq<Gain>, uid: string,
                                              targets: seq<string>, matches: (Gain, string) -> bool)
    ensures |MissingTargets(equipment, gains, uid, targets, matches)| ==
              |Filter(targets, Unreachable(equipment, gains, matches))|
  {
    if |targets| > 0 {
      MissingTargetsCount(equipment, gains, uid, targets[..|targets| - 1], matches);
    }
  }

  // ---------------------------------------------------------------------------
  // Toughness (UnitService.ts:242-260)
  // ---------------------------------------------------------------------------

  /** `parseInt(rating)`: `None` is `NaN`. */
  function ParseRating(r: Rating): Option<int>
  {
    match r
    case Rated(n) => Some(n)
    case _ => None
  }

  /** JavaScript addition on numbers that may be `NaN`. */
  function AddNumbers(a: Option<int>, b: Option<int>): (r: Option<int>)
    ensures r.Some? <==> a.Some? && b.Some?
  {
    if a.Some? && b.Some? then Some(a.value + b.value) else None
  }

  /** Sum of the ratings of the rules named "Tough". */
  function ToughSum(rules: seq<Rule>): Option<int>
  {
    if |rules| == 0 then Some(0)
    else
      var r := rules[|rules| - 1];
      AddNumbers(ToughSum(rules[..|rules| - 1]), if r.name == "Tough" then ParseRating(r.rating) else Some(0))
  }

  /** `baseTough || 1`: `NaN` and 0 both become 1. */
  function OrOne(n: Option<int>): int
  {
    match n
    case Some(v) => if v == 0 then 1 else v
    case None => 1
  }

  /** `getTough`. */
  function GetTough(u: Unit): (t: int)
    ensures t != 0
  {
    OrOne(AddNumbers(ToughSum(u.specialRules), ToughSum(GetAllUpgradedRules(u))))
  }

  lemma {:induction false} ToughSumConcat(a: seq<Rule>, b: seq<Rule>)
    ensures ToughSum(a + b) == AddNumbers(ToughSum(a), ToughSum(b))
    decreases |b|
  {
    if |b| == 0 {
      assert a + b == a;
    } else {
      assert (a + b)[..|a + b| - 1] == a + b[..|b| - 1];
      ToughSumConcat(a, b[..|b| - 1]);
    }
  }

  /** Toughness is the "Tough" total over all of the unit's rules, 1 when that is 0. */
  lemma ToughOverAllRules(u: Unit)
    ensures GetTough(u) == OrOne(ToughSum(GetAllRules(u)))
  {
    ToughSumConcat(u.specialRules, GetAllUpgradedRules(u));
  }

  /** When every "Tough" rule is rated, the sum is an integer: no `NaN` arises. */
  lemma {:induction false} ToughSumRated(rules: seq<Rule>)
    requires forall r :: r in rules && r.name == "Tough" ==> r.rating.Rated?
    ensures ToughSum(rules).Some?
  {
    if |rules| > 0 {
      ToughSumRated(rules[..|rules| - 1]);
      assert rules[|rules| - 1] in rules;
    }
  }

  /** An item that adds a model contributes nothing to toughness. */
  lemma ModelItemDoesNotToughen(u: Unit, item: Gain)
    requires item.Item? && item.isModel
    ensures GetTough(u.(loadout := u.loadout + [item])) == GetTough(u)
  {
    var l := u.loadout + [item];
    assert l[..|l| - 1] == u.loadout;
    assert ItemContentRules(l) == ItemContentRules(u.loadout) + [];
    assert GetAllUpgradedRules(u.(loadout := l)) == GetAllUpgradedRules(u);
  }

  /** An item that adds no model and holds a rated "Tough" rule adds its rating. */
  lemma ToughItemAddsRating(u: Unit, item: Gain, n: int)
    requires item.Item? && !item.isModel
    requires item.content == [RuleGain(item.id, "Tough", None, 0, Rated(n), false, "")]
    requires ToughSum(u.specialRules).Some? && ToughSum(GetAllUpgradedRules(u)).Some?
    requires ToughSum(u.specialRules).value + ToughSum(GetAllUpgradedRules(u)).value + n != 0
    ensures GetTough(u.(loadout := u.loadout + [item])) ==
              ToughSum(u.specialRules).value + ToughSum(GetAllUpgradedRules(u)).value + n
  {
    var l := u.loadout + [item];
    assert l[..|l| - 1] == u.loadout;
    var extra := RuleAndDefenseRules(item.content);
    var g := item.content[0];
    assert item.content[..|item.content| - 1] == [];
    assert ToRule(g) == Rule("Tough", Rated(n), false, "");
    assert extra == RuleAndDefenseRules([]) + [ToRule(g)];
    assert ItemContentRules(l) == ItemContentRules(u.loadout) + extra;
    ToughSumConcat(GetUpgradeRules(u), ItemContentRules(u.loadout));
    ToughSumConcat(GetUpgradeRules(u), ItemContentRules(u.loadout) + extra);
    ToughSumConcat(ItemContentRules(u.loadout), extra);
    assert extra[..0] == [];
  }
}
