/** The plain-text rendering of a list (`getListAsText`,
    services/PersistenceService.ts:311-380). Prices come from the upgrade
    service, the parameter `total`. */
module TextExport {
  import opened Basics
  import opened Helpers
  import opened Army
  import opened Rules
  import opened Units

  /** `++ name [Npts] ++`, followed by an empty line. */
  function HeaderLine(list: ListState): string
  {
    "++ " + list.name + " [" + NatToString(list.points) + "pts] ++\n"
  }

  /** `"Nx "` in front of a count above 1, nothing otherwise. */
  function CountPrefix(count: nat): (p: string)
    ensures p == "" <==> count <= 1
  {
    if count > 1 then NatToString(count) + "x " else ""
  }

  // ---------------------------------------------------------------------------
  // Weapon labels
  // ---------------------------------------------------------------------------

  /** The label of a weapon around an already rendered rule list. */
  function LabelAround(w: Gain, rules: string): (text: string)
    requires w.Weapon?
  {
    var range := if w.range != 0 then NatToString(w.range) + "\", " else "";
    var attacks := if w.attacks != 0 then "A" + NatToString(w.attacks) else "";
    if range == "" && attacks == "" && rules == "" then w.name
    else w.name + " (" + range + attacks + (if |rules| > 0 then ", " + rules else "") + ")"
  }

  /** `item.specialRules.map(RulesService.displayName)`: `map` hands each rule
      its index, which `displayName` takes as the count. */
  function IndexedRuleNames(rs: seq<Rule>): (names: seq<string>)
    ensures |names| == |rs|
  {
    seq(|rs|, i requires 0 <= i < |rs| => DisplayName(rs[i], i))
  }

  /** Each rule rendered on its own, without a count. */
  function BareRuleNames(rs: seq<Rule>): (names: seq<string>)
    ensures |names| == |rs|
  {
    seq(|rs|, i requires 0 <= i < |rs| => BareDisplayName(rs[i]))
  }

  /** `constructLabel` as written: the third rule of a weapon onwards is shown
      with its index as a count. */
  function ConstructLabelAsWritten(w: Gain): string
    requires w.Weapon?
  {
    LabelAround(w, Join(IndexedRuleNames(w.specialRules), ", "))
  }

  /** `constructLabel` with every rule rendered without a count. */
  function ConstructLabel(w: Gain): string
    requires w.Weapon?
  {
    LabelAround(w, Join(BareRuleNames(w.specialRules), ", "))
  }

  /** A weapon without range, attacks and rules is labelled by its bare name;
      anything else makes the label longer than the name. */
  lemma BareWeaponLabel(w: Gain)
    requires w.Weapon?
    requires forall r :: r in w.specialRules ==> |r.name| > 0
    ensures ConstructLabel(w) == w.name <==> w.range == 0 && w.attacks == 0 && |w.specialRules| == 0
    ensures ConstructLabelAsWritten(w) == w.name <==> w.range == 0 && w.attacks == 0 && |w.specialRules| == 0
  {
    var names := BareRuleNames(w.specialRules);
    if |names| > 0 {
      JoinStartsWithFirst(names, ", ");
      JoinStartsWithFirst(IndexedRuleNames(w.specialRules), ", ");
      DisplayNameCountPrefix(w.specialRules[0], 0);
      assert w.specialRules[0] in w.specialRules;
    }
  }

  /** Written as is, the rule at position 2 of a weapon reads back as two of it. */
  lemma IndexedRuleNamesMiscount(rs: seq<Rule>)
    requires |rs| >= 3 && |rs[2].name| > 0 && !IsDigit(rs[2].name[0])
    ensures ReadCount(IndexedRuleNames(rs)[2]) == 2
  {
    DisplayNameCountRoundTrip(rs[2], 2);
  }

  function ExampleRules(): seq<Rule>
  {
    [Rule("AP", Rated(1), false, ""), Rule("Blast", Rated(3), false, ""), Rule("Rending", Unrated, false, "")]
  }

  lemma ExampleDisplayNames()
    ensures DisplayName(ExampleRules()[0], 0) == "AP(1)"
    ensures DisplayName(ExampleRules()[1], 0) == "Blast(3)" && DisplayName(ExampleRules()[1], 1) == "Blast(3)"
    ensures DisplayName(ExampleRules()[2], 0) == "Rending" && DisplayName(ExampleRules()[2], 2) == "2x Rending"
  {
    assert NatToString(1) == "1" && NatToString(2) == "2" && NatToString(3) == "3";
    assert IntToString(1) == "1" && IntToString(3) == "3";
  }

  /** A concrete weapon with three rules: as written its rule list reads
      "AP(1), Blast(3), 2x Rending", although it carries one Rending rule. */
  lemma ConstructLabelAsWrittenExample()
    ensures Join(IndexedRuleNames(ExampleRules()), ", ") == "AP(1), Blast(3), 2x Rending"
  {
    IndexedExampleNames();
    JoinThree("AP(1)", "Blast(3)", "2x Rending", ", ");
    ExampleTexts();
  }

  /** The literal concatenations the two example lemmas rely on. */
  lemma ExampleTexts()
    ensures "AP(1)" + ", " + "Blast(3)" + ", " + "2x Rending" == "AP(1), Blast(3), 2x Rending"
    ensures "Rifle" + " (" + "" + "A1" + (", " + "AP(1), Blast(3), 2x Rending") + ")" == "Rifle (A1, AP(1), Blast(3), 2x Rending)"
  {
  }

  lemma IndexedExampleNames()
    ensures IndexedRuleNames(ExampleRules()) == ["AP(1)", "Blast(3)", "2x Rending"]
  {
    ExampleDisplayNames();
    var names := IndexedRuleNames(ExampleRules());
    assert names[0] == "AP(1)" && names[1] == "Blast(3)" && names[2] == "2x Rending";
  }

  /** The same weapon rendered without counts. */
  lemma ConstructLabelExample()
    ensures Join(BareRuleNames(ExampleRules()), ", ") == "AP(1), Blast(3), Rending"
  {
    BareExampleNames();
    JoinThree("AP(1)", "Blast(3)", "Rending", ", ");
    assert "AP(1)" + ", " == "AP(1), ";
    assert "AP(1), " + "Blast(3)" == "AP(1), Blast(3)";
    assert "AP(1), Blast(3)" + ", " == "AP(1), Blast(3), ";
    assert "AP(1), Blast(3), " + "Rending" == "AP(1), Blast(3), Rending";
  }

  lemma BareExampleNames()
    ensures BareRuleNames(ExampleRules()) == ["AP(1)", "Blast(3)", "Rending"]
  {
    ExampleDisplayNames();
    var names := BareRuleNames(ExampleRules());
    assert names[0] == "AP(1)" && names[1] == "Blast(3)" && names[2] == "Rending";
  }

  lemma JoinThree(a: string, b: string, c: string, sep: string)
    ensures Join([a, b, c], sep) == a + sep + b + sep + c
  {
    assert [a, b, c][1..] == [b, c];
    assert [b, c][1..] == [c];
  }

  /** Rendered without a count, no rule of a weapon reads back as more than one. */
  lemma BareRuleNamesCountOne(rs: seq<Rule>, i: nat)
    requires i < |rs| && |rs[i].name| > 0 && !IsDigit(rs[i].name[0])
    ensures ReadCount(BareRuleNames(rs)[i]) == 1
  {
    DisplayNameCountRoundTrip(rs[i], 0);
  }

  // ---------------------------------------------------------------------------
  // The weapon line
  // ---------------------------------------------------------------------------

  /** Piece `i` of an item's content, `{ ...c, count: (c.count || 1) * x.count }`. */
  function ScaledPiece(x: Gain, i: nat): Gain
    requires x.Item? && i < |x.content|
  {
    var c := x.content[i];
    c.(count := (if c.count == 0 then 1 else c.count) * x.count)
  }

  function ScaledContent(x: Gain): (r: seq<Gain>)
    ensures |r| == (if x.Item? then |x.content| else 0)
  {
    if x.Item? then seq(|x.content|, i requires 0 <= i < |x.content| => ScaledPiece(x, i)) else []
  }

  /** `_.flatMap(loadout, x => x.content?.map(...) || [])`. */
  function ItemContents(loadout: seq<Gain>): seq<Gain>
  {
    if |loadout| == 0 then [] else ItemContents(loadout[..|loadout| - 1]) + ScaledContent(loadout[|loadout| - 1])
  }

  /** `w` is a piece of an item of the loadout, scaled by the item's count. */
  predicate InsideItem(loadout: seq<Gain>, w: Gain)
  {
    exists x, i :: x in loadout && x.Item? && 0 <= i < |x.content| && w == ScaledPiece(x, i)
  }

  predicate IsWeapon(g: Gain) { g.Weapon? }

  /** The weapons a unit carries: its loadout's own, then those inside items. */
  function AllWeapons(loadout: seq<Gain>): seq<Gain>
  {
    Filter(loadout + ItemContents(loadout), IsWeapon)
  }

  /** A weapon is listed when it is in the loadout, or inside an item of the
      loadout with its count multiplied by the item's count. */
  lemma AllWeaponsMembership(loadout: seq<Gain>, w: Gain)
    ensures w in AllWeapons(loadout) <==> w.Weapon? && (w in loadout || InsideItem(loadout, w))
  {
    FilterMembership(loadout + ItemContents(loadout), IsWeapon, w);
    ItemContentsMembership(loadout, w);
  }

  lemma ItemContentsMembership(loadout: seq<Gain>, w: Gain)
    ensures w in ItemContents(loadout) <==> InsideItem(loadout, w)
  {
    if w in ItemContents(loadout) {
      ItemContentsOnlyFromItems(loadout, w);
    }
    if InsideItem(loadout, w) {
      var x, i :| x in loadout && x.Item? && 0 <= i < |x.content| && w == ScaledPiece(x, i);
      ItemContentsHoldsPieces(loadout, x, i);
    }
  }

  lemma {:induction false} ItemContentsOnlyFromItems(loadout: seq<Gain>, w: Gain)
    requires w in ItemContents(loadout)
    ensures InsideItem(loadout, w)
  {
    var init, last := loadout[..|loadout| - 1], loadout[|loadout| - 1];
    if w in ScaledContent(last) {
      var i :| 0 <= i < |ScaledContent(last)| && ScaledContent(last)[i] == w;
      assert last in loadout && last.Item? && w == ScaledPiece(last, i);
    } else {
      ItemContentsOnlyFromItems(init, w);
      var x, i :| x in init && x.Item? && 0 <= i < |x.content| && w == ScaledPiece(x, i);
      assert x in loadout;
    }
  }

  lemma {:induction false} ItemContentsHoldsPieces(loadout: seq<Gain>, x: Gain, i: nat)
    requires x in loadout && x.Item? && i < |x.content|
    ensures ScaledPiece(x, i) in ItemContents(loadout)
  {
    var init, last := loadout[..|loadout| - 1], loadout[|loadout| - 1];
    assert loadout == init + [last];
    if x == last {
      assert ScaledContent(last)[i] == ScaledPiece(x, i);
    } else {
      assert x in init;
      ItemContentsHoldsPieces(init, x, i);
    }
  }

  /** The label `getWeapons` groups and prints by: `constructLabel` as written,
      so from a weapon's third rule on the rule carries its index as a count. */
  function WeaponLabel(w: Gain): string
  {
    if w.Weapon? then ConstructLabelAsWritten(w) else w.name
  }

  /** The export prints the miscounted rule list: a rifle with one Rending rule
      is shown with "2x Rending". */
  lemma ExportedWeaponLabelExample()
    ensures WeaponLabel(Weapon("rifle", "Rifle", None, 1, 0, 1, ExampleRules())) == "Rifle (A1, AP(1), Blast(3), 2x Rending)"
  {
    ConstructLabelAsWrittenExample();
    assert NatToString(1) == "1";
    assert "A" + "1" == "A1";
    ExampleTexts();
  }

  function GainCount(g: Gain): nat { g.count }

  /** One part per distinct label, in order of first appearance, with the
      summed count in front. */
  function WeaponParts(ws: seq<Gain>): (parts: seq<string>)
    ensures |parts| == |KeyOrder(ws, WeaponLabel)|
  {
    GroupMap(ws, WeaponLabel, (group, key) => CountPrefix(WeightSum(group, GainCount)) + key)
  }

  /** `getWeapons`. */
  function GetWeapons(u: Unit): string
  {
    Join(WeaponParts(AllWeapons(u.loadout)), ", ")
  }

  /** Merging weapons by label loses no weapon: the counts shown add up to the
      summed count of all the weapons. */
  lemma WeaponCountsPreserved(ws: seq<Gain>)
    ensures BucketWeights(ws, WeaponLabel, KeyOrder(ws, WeaponLabel), GainCount) == WeightSum(ws, GainCount)
  {
    GroupsWeights(ws, WeaponLabel, GainCount);
  }

  /** Part `j` of the weapon line is the summed count of the weapons labelled
      like it (shown only above 1) in front of that label; labels are distinct. */
  lemma WeaponPartShape(ws: seq<Gain>, j: nat)
    requires j < |KeyOrder(ws, WeaponLabel)|
    ensures var k := KeyOrder(ws, WeaponLabel)[j];
      && WeaponParts(ws)[j] == CountPrefix(WeightSum(Bucket(ws, WeaponLabel, k), GainCount)) + k
      && (forall w :: w in Bucket(ws, WeaponLabel, k) <==> w in ws && WeaponLabel(w) == k)
      && (forall i :: 0 <= i < |KeyOrder(ws, WeaponLabel)| && i != j ==> KeyOrder(ws, WeaponLabel)[i] != k)
  {
    var k := KeyOrder(ws, WeaponLabel)[j];
    KeyOrderProperties(ws, WeaponLabel);
    forall w ensures w in Bucket(ws, WeaponLabel, k) <==> w in ws && WeaponLabel(w) == k {
      BucketMembership(ws, WeaponLabel, k, w);
    }
  }

  // ---------------------------------------------------------------------------
  // The rule list
  // ---------------------------------------------------------------------------

  predicate IsListedRule(r: Rule) { r.name != "-" }

  predicate IsItem(g: Gain) { g.Item? }

  /** `(x.count ? x.count + "x " : "") + name(rules...)`. */
  function ItemRulesText(x: ItemRules): string
  {
    (match x.count case Some(n) => (if n != 0 then NatToString(n) + "x " else "") case None => "")
      + x.name + "(" + Join(BareRuleNames(x.specialRules), ", ") + ")"
  }

  function GroupedRuleNames(g: seq<GroupedRule>): (names: seq<string>)
    ensures |names| == |g|
  {
    seq(|g|, i requires 0 <= i < |g| => DisplayName(g[i].rule, g[i].count))
  }

  function ItemRuleTexts(items: seq<ItemRules>): (texts: seq<string>)
    ensures |texts| == |items|
  {
    seq(|items|, i requires 0 <= i < |items| => ItemRulesText(items[i]))
  }

  /** The unit's rules (without the "-" placeholder) and its upgrades' rules,
      grouped by name. */
  function UnitRules(u: Unit): seq<Rule>
  {
    Filter(u.specialRules, IsListedRule) + GetUpgradeRules(u)
  }

  /** `getRules`: grouped rules, then the rules of each item, then the traits. */
  function GetRules(u: Unit): string
  {
    Join(GroupedRuleNames(Group(UnitRules(u)))
         + ItemRuleTexts(GetItemRules(u, Filter(u.loadout, IsItem)))
         + u.traits, ", ")
  }

  // ---------------------------------------------------------------------------
  // The lines of a list
  // ---------------------------------------------------------------------------

  /** `unit.customName || unit.name`. */
  function ShownName(u: Unit): string
  {
    match u.customName
    case Some(n) => if n != "" then n else u.name
    case None => u.name
  }

  /** The profile line: count, name, size, quality, defense, cost, experience
      and rules. */
  function ProfileLine(u: Unit, count: nat, cost: nat): string
  {
    CountPrefix(count) + ShownName(u) + " [" + NatToString(GetSize(u)) + "] Q" + NatToString(u.quality)
      + "+ D" + NatToString(u.defense) + "+ | " + NatToString(cost) + "pts"
      + (if u.xp != 0 then " | " + NatToString(u.xp) + "XP" else "") + " | " + GetRules(u)
  }

  /** The weapon line, with an empty line after it at the end of a group. */
  function WeaponLine(u: Unit, endWithNewline: bool): string
  {
    GetWeapons(u) + (if endWithNewline then "\n" else "")
  }

  /** The two lines `writeLine` pushes for a unit. Without an explicit cost the
      upgrade service prices the unit. */
  function WriteLine(u: Unit, count: nat, endWithNewline: bool, pointsCost: Option<nat>, total: Unit -> nat): (lines: seq<string>)
    ensures |lines| == 2
  {
    var cost := match pointsCost case Some(c) => c case None => total(u);
    [ProfileLine(u, count, cost), WeaponLine(u, endWithNewline)]
  }

  /** `group.flatMap(x => x.heroes)`. */
  function GroupHeroes(group: seq<FullUnit>): seq<Unit>
  {
    if |group| == 0 then [] else GroupHeroes(group[..|group| - 1]) + group[|group| - 1].heroes
  }

  /** A hero's two lines followed by "# Joined to:". */
  function HeroBlock(total: Unit -> nat): Unit -> seq<string>
  {
    (h: Unit) => WriteLine(h, 1, false, None, total) + ["# Joined to:"]
  }

  /** Each hero's block, in order. */
  function HeroLines(heroes: seq<Unit>, total: Unit -> nat): (lines: seq<string>)
    ensures |lines| == 3 * |heroes|
  {
    HeroBlockLength(total);
    FlatMapLength(heroes, HeroBlock(total), 3);
    FlatMap(heroes, HeroBlock(total))
  }

  /** The lines of one display group: the heroes, then the group's first unit
      once, counted by the group's size and priced by its `unitPoints`. */
  function GroupLines(group: seq<FullUnit>, total: Unit -> nat): (lines: seq<string>)
    requires |group| > 0
    ensures |lines| == 3 * |GroupHeroes(group)| + 2
  {
    HeroLines(GroupHeroes(group), total) + WriteLine(group[0].unit, |group|, true, Some(group[0].unitPoints), total)
  }

  function GroupsLines(groups: seq<seq<FullUnit>>, total: Unit -> nat): seq<string>
    requires forall j :: 0 <= j < |groups| ==> |groups[j]| > 0
  {
    if |groups| == 0 then []
    else GroupsLines(groups[..|groups| - 1], total) + GroupLines(groups[|groups| - 1], total)
  }

  /** The display groups of a list, with combined units merged. */
  function ListGroups(list: ListState, total: Unit -> nat): seq<seq<FullUnit>>
  {
    GetGroupedDisplayUnits(GetFullUnitList(list.units, true, total))
  }

  /** Display groups are never empty. */
  lemma ListGroupsNonEmpty(list: ListState, total: Unit -> nat)
    ensures forall j :: 0 <= j < |ListGroups(list, total)| ==> |ListGroups(list, total)[j]| > 0
  {
    var input := GetFullUnitList(list.units, true, total);
    GroupsPartition(Indexed(input), KeyOf);
  }

  /** Every line of the text, before joining. */
  function ListLines(list: ListState, total: Unit -> nat): seq<string>
  {
    ListGroupsNonEmpty(list, total);
    [HeaderLine(list)] + GroupsLines(ListGroups(list, total), total)
  }

  /** The lines of the heroes of a group, hero by hero. */
  method WriteHeroLines(heroes: seq<Unit>, total: Unit -> nat) returns (lines: seq<string>)
    ensures lines == HeroLines(heroes, total)
  {
    lines := [];
    for k := 0 to |heroes|
      invariant lines == HeroLines(heroes[..k], total)
    {
      HeroLinesStep(heroes, total, k);
      lines := lines + WriteLine(heroes[k], 1, false, None, total) + ["# Joined to:"];
    }
    assert heroes[..|heroes|] == heroes;
  }

  lemma HeroLinesStep(heroes: seq<Unit>, total: Unit -> nat, k: nat)
    requires k < |heroes|
    ensures HeroLines(heroes[..k + 1], total) == HeroLines(heroes[..k], total) + WriteLine(heroes[k], 1, false, None, total) + ["# Joined to:"]
  {
    var xs := heroes[..k + 1];
    assert xs[..|xs| - 1] == heroes[..k];
    assert FlatMap(xs, HeroBlock(total)) == FlatMap(heroes[..k], HeroBlock(total)) + HeroBlock(total)(heroes[k]);
  }

  /** The lines of one display group. */
  method WriteGroupLines(group: seq<FullUnit>, total: Unit -> nat) returns (lines: seq<string>)
    requires |group| > 0
    ensures lines == GroupLines(group, total)
  {
    var heroLines := WriteHeroLines(GroupHeroes(group), total);
    lines := heroLines + WriteLine(group[0].unit, |group|, true, Some(group[0].unitPoints), total);
  }

  /** The lines of all display groups, group by group. */
  method WriteGroupsLines(groups: seq<seq<FullUnit>>, total: Unit -> nat) returns (lines: seq<string>)
    requires forall j :: 0 <= j < |groups| ==> |groups[j]| > 0
    ensures lines == GroupsLines(groups, total)
  {
    lines := [];
    for j := 0 to |groups|
      invariant lines == GroupsLines(groups[..j], total)
    {
      var more := WriteGroupLines(groups[j], total);
      GroupsLinesStep(groups, j, total);
      lines := lines + more;
    }
    assert groups[..|groups|] == groups;
  }

  lemma GroupsLinesStep(groups: seq<seq<FullUnit>>, j: nat, total: Unit -> nat)
    requires j < |groups|
    requires forall i :: 0 <= i < |groups| ==> |groups[i]| > 0
    ensures GroupsLines(groups[..j + 1], total) == GroupsLines(groups[..j], total) + GroupLines(groups[j], total)
  {
    assert groups[..j + 1][..j] == groups[..j];
  }

  /** `getListAsText`. */
  method GetListAsText(list: ListState, total: Unit -> nat) returns (text: string)
    ensures text == Join(ListLines(list, total), "\n")
  {
    ListGroupsNonEmpty(list, total);
    var body := WriteGroupsLines(ListGroups(list, total), total);
    text := Join([HeaderLine(list)] + body, "\n");
  }

  /** The text starts with the header line. */
  lemma TextStartsWithHeader(list: ListState, total: Unit -> nat)
    ensures var text := Join(ListLines(list, total), "\n");
      |HeaderLine(list)| <= |text| && text[..|HeaderLine(list)|] == HeaderLine(list)
  {
    JoinStartsWithFirst(ListLines(list, total), "\n");
  }

  /** Within a group, every hero's profile and weapon lines are followed by
      "# Joined to:", and the group ends with its first unit's lines, counted
      once per entry and priced by its own points. */
  lemma GroupLinesShape(group: seq<FullUnit>, total: Unit -> nat)
    requires |group| > 0
    ensures var lines := GroupLines(group, total);
      var heroes := GroupHeroes(group);
      && (forall k :: 0 <= k < |heroes| ==>
            && lines[3 * k] == ProfileLine(heroes[k], 1, total(heroes[k]))
            && lines[3 * k + 1] == WeaponLine(heroes[k], false)
            && lines[3 * k + 2] == "# Joined to:")
      && lines[|lines| - 2] == ProfileLine(group[0].unit, |group|, group[0].unitPoints)
      && lines[|lines| - 1] == WeaponLine(group[0].unit, true)
  {
    var heroes := GroupHeroes(group);
    forall k | 0 <= k < |heroes|
      ensures GroupLines(group, total)[3 * k] == ProfileLine(heroes[k], 1, total(heroes[k]))
      ensures GroupLines(group, total)[3 * k + 1] == WeaponLine(heroes[k], false)
      ensures GroupLines(group, total)[3 * k + 2] == "# Joined to:"
    {
      GroupLinesHero(group, total, k);
    }
    GroupLinesUnit(group, total);
  }

  lemma GroupLinesHero(group: seq<FullUnit>, total: Unit -> nat, k: nat)
    requires |group| > 0 && k < |GroupHeroes(group)|
    ensures var lines, h := GroupLines(group, total), GroupHeroes(group)[k];
      && lines[3 * k] == ProfileLine(h, 1, total(h))
      && lines[3 * k + 1] == WeaponLine(h, false)
      && lines[3 * k + 2] == "# Joined to:"
  {
    var heroes := GroupHeroes(group);
    var front := HeroLines(heroes, total);
    HeroLinesAt(heroes, total, k);
    assert GroupLines(group, total)[..|front|] == front;
  }

  lemma GroupLinesUnit(group: seq<FullUnit>, total: Unit -> nat)
    requires |group| > 0
    ensures var lines := GroupLines(group, total);
      && lines[|lines| - 2] == ProfileLine(group[0].unit, |group|, group[0].unitPoints)
      && lines[|lines| - 1] == WeaponLine(group[0].unit, true)
  {
  }

  lemma HeroLinesAt(heroes: seq<Unit>, total: Unit -> nat, k: nat)
    requires k < |heroes|
    ensures HeroLines(heroes, total)[3 * k] == ProfileLine(heroes[k], 1, total(heroes[k]))
    ensures HeroLines(heroes, total)[3 * k + 1] == WeaponLine(heroes[k], false)
    ensures HeroLines(heroes, total)[3 * k + 2] == "# Joined to:"
  {
    HeroProfileLineAt(heroes, total, k);
    HeroWeaponLineAt(heroes, total, k);
    HeroLineAt(heroes, total, k, 2);
  }

  lemma HeroProfileLineAt(heroes: seq<Unit>, total: Unit -> nat, k: nat)
    requires k < |heroes|
    ensures HeroLines(heroes, total)[3 * k] == ProfileLine(heroes[k], 1, total(heroes[k]))
  {
    HeroLineAt(heroes, total, k, 0);
    assert HeroLines(heroes, total)[3 * k] == HeroBlock(total)(heroes[k])[0];
    HeroBlockProfile(heroes[k], total);
  }

  lemma HeroBlockProfile(h: Unit, total: Unit -> nat)
    ensures HeroBlock(total)(h)[0] == ProfileLine(h, 1, total(h))
  {
    var w := WriteLine(h, 1, false, None, total);
    assert w[0] == ProfileLine(h, 1, total(h));
    assert HeroBlock(total)(h) == w + ["# Joined to:"];
  }

  lemma HeroWeaponLineAt(heroes: seq<Unit>, total: Unit -> nat, k: nat)
    requires k < |heroes|
    ensures HeroLines(heroes, total)[3 * k + 1] == WeaponLine(heroes[k], false)
  {
    HeroLineAt(heroes, total, k, 1);
  }

  lemma HeroLineAt(heroes: seq<Unit>, total: Unit -> nat, k: nat, j: nat)
    requires k < |heroes| && j < 3
    ensures HeroLines(heroes, total)[3 * k + j] == HeroBlock(total)(heroes[k])[j]
  {
    HeroBlockLength(total);
    FlatMapBlocks(heroes, HeroBlock(total), k, j);
  }

  lemma HeroBlockLength(total: Unit -> nat)
    ensures forall h :: |HeroBlock(total)(h)| == 3
  {
  }


}
