/** Campaign traits (services/TraitService.tsx): the flat, memoised list of
    trait definitions and the classification of a unit's trait names into
    injuries, talents and plain traits. */
module Traits {
  import opened Basics
  import opened Helpers

  datatype TraitDef = TraitDef(name: string, description: string)

  datatype SkillSet = SkillSet(id: string, name: string, traits: seq<TraitDef>)

  /** The campaign definitions of one game system. */
  datatype CampaignData = CampaignData(units: seq<TraitDef>, heroes: seq<SkillSet>,
                                       injuries: seq<TraitDef>, talents: seq<TraitDef>)

  const InjuriesKey := "injuries"
  const TalentsKey := "talents"
  const TraitsKey := "traits"

  // ---------------------------------------------------------------------------
  // getFlatTraitDefinitions
  // ---------------------------------------------------------------------------

  /** `heroes.flatMap(x => x.traits)`. */
  function SkillSetTraits(heroes: seq<SkillSet>): seq<TraitDef>
  {
    if |heroes| == 0 then [] else SkillSetTraits(heroes[..|heroes| - 1]) + heroes[|heroes| - 1].traits
  }

  /** Unit traits, injuries, talents, then every hero skill set's traits. */
  function FlatTraits(defs: CampaignData): seq<TraitDef>
  {
    defs.units + defs.injuries + defs.talents + SkillSetTraits(defs.heroes)
  }

  /** A definition is in the flat list exactly when it is one of the unit
      traits, injuries or talents, or belongs to a hero skill set. */
  lemma FlatTraitsMembership(defs: CampaignData, t: TraitDef)
    ensures t in FlatTraits(defs) <==>
      t in defs.units || t in defs.injuries || t in defs.talents || exists s :: s in defs.heroes && t in s.traits
  {
    SkillSetTraitsMembership(defs.heroes, t);
  }

  lemma {:induction false} SkillSetTraitsMembership(heroes: seq<SkillSet>, t: TraitDef)
    ensures t in SkillSetTraits(heroes) <==> exists s :: s in heroes && t in s.traits
  {
    if |heroes| > 0 {
      var init, last := heroes[..|heroes| - 1], heroes[|heroes| - 1];
      SkillSetTraitsMembership(init, t);
      assert heroes == init + [last];
      if exists s :: s in heroes && t in s.traits {
        var s :| s in heroes && t in s.traits;
        if s != last {
          assert s in init;
        }
      }
    }
  }

  /** The definitions of every game system with the flat list memoised per
      system once it has been asked for. */
  class TraitDefinitions {
    var bySystem: map<string, CampaignData>
    var all: map<string, seq<TraitDef>>

    /** A memoised list is always the flat list of its system's definitions. */
    predicate Valid()
      reads this
    {
      forall s :: s in all ==> s in bySystem && all[s] == FlatTraits(bySystem[s])
    }

    constructor (bySystem: map<string, CampaignData>)
      ensures Valid() && this.bySystem == bySystem && all == map[]
    {
      this.bySystem := bySystem;
      all := map[];
    }

    /** `getFlatTraitDefinitions`: the flat list of the system, computed on
        first use and stored. A system without definitions gives `None`. */
    method GetFlatTraitDefinitions(system: string) returns (r: Option<seq<TraitDef>>)
      requires Valid()
      modifies this
      ensures Valid() && bySystem == old(bySystem)
      ensures system in bySystem ==> r == Some(FlatTraits(bySystem[system])) && all == old(all)[system := r.value]
      ensures system !in bySystem ==> r.None? && all == old(all)
    {
      if system !in bySystem {
        return None;
      }
      if system !in all {
        var defs := bySystem[system];
        all := all[system := FlatTraits(defs)];
      }
      r := Some(all[system]);
    }
  }

  // ---------------------------------------------------------------------------
  // groupTraits
  // ---------------------------------------------------------------------------

  /** The first definition with the given name. */
  function FindTrait(ts: seq<TraitDef>, name: string): (r: Option<TraitDef>)
    ensures r.Some? ==> r.value in ts && r.value.name == name
    ensures r.None? ==> forall t :: t in ts ==> t.name != name
    ensures r.Some? ==> exists i :: 0 <= i < |ts| && ts[i] == r.value && forall j :: 0 <= j < i ==> ts[j].name != name
  {
    if |ts| == 0 then None else if ts[0].name == name then Some(ts[0]) else FindTrait(ts[1..], name)
  }

  /** The group a trait name falls into: an injury first, then a talent,
      anything else a plain trait. */
  function GroupKey(defs: CampaignData, name: string): (key: string)
    ensures key == InjuriesKey <==> FindTrait(defs.injuries, name).Some?
    ensures key == TalentsKey <==> FindTrait(defs.injuries, name).None? && FindTrait(defs.talents, name).Some?
    ensures key == TraitsKey <==> FindTrait(defs.injuries, name).None? && FindTrait(defs.talents, name).None?
  {
    if FindTrait(defs.injuries, name).Some? then InjuriesKey
    else if FindTrait(defs.talents, name).Some? then TalentsKey
    else TraitsKey
  }

  function EmptyGroups(): map<string, seq<TraitDef>>
  {
    map[InjuriesKey := [], TalentsKey := [], TraitsKey := []]
  }

  /** One more trait name: its entry appended to its group, or the name itself
      when it has no definition (the source fails reading its description). */
  function AddTrait(m: map<string, seq<TraitDef>>, name: string, defs: CampaignData): (r: Result<map<string, seq<TraitDef>>, string>)
    requires m.Keys == {InjuriesKey, TalentsKey, TraitsKey}
    ensures r.Ok? ==> r.value.Keys == m.Keys
    ensures r.Err? <==> FindTrait(FlatTraits(defs), name).None?
  {
    match FindTrait(FlatTraits(defs), name)
    case None => Err(name)
    case Some(d) =>
      var key := GroupKey(defs, name);
      Ok(m[key := m[key] + [TraitDef(name, d.description)]])
  }

  /** The groups after the given trait names, or the first name without a
      definition. */
  function Collect(traits: seq<string>, defs: CampaignData): (r: Result<map<string, seq<TraitDef>>, string>)
    ensures r.Ok? ==> r.value.Keys == {InjuriesKey, TalentsKey, TraitsKey}
  {
    if |traits| == 0 then Ok(EmptyGroups())
    else
      match Collect(traits[..|traits| - 1], defs)
      case Err(e) => Err(e)
      case Ok(m) => AddTrait(m, traits[|traits| - 1], defs)
  }

  /** What `groupTraits` returns. */
  function GroupTraitsSpec(traits: seq<string>, defs: CampaignData): Result<map<string, seq<TraitDef>>, string>
  {
    if |traits| == 0 then Ok(map[]) else Collect(traits, defs)
  }

  lemma {:induction false} CollectErrorStays(traits: seq<string>, defs: CampaignData, i: nat)
    requires i <= |traits| && Collect(traits[..i], defs).Err?
    ensures Collect(traits, defs) == Collect(traits[..i], defs)
    decreases |traits| - i
  {
    if i < |traits| {
      assert traits[..i + 1][..i] == traits[..i];
      CollectErrorStays(traits, defs, i + 1);
    } else {
      assert traits[..i] == traits;
    }
  }

  /** `groupTraits`: an empty dictionary for no traits, otherwise the three
      groups filled trait by trait. */
  method GroupTraits(traits: seq<string>, defs: CampaignData) returns (r: Result<map<string, seq<TraitDef>>, string>)
    ensures r == GroupTraitsSpec(traits, defs)
  {
    var grouped: map<string, seq<TraitDef>> := map[];
    if |traits| == 0 {
      return Ok(grouped);
    }
    grouped := grouped[InjuriesKey := []][TalentsKey := []][TraitsKey := []];
    var flat := FlatTraits(defs);
    for i := 0 to |traits|
      invariant Collect(traits[..i], defs) == Ok(grouped)
    {
      assert traits[..i + 1][..i] == traits[..i];
      var found := FindTrait(flat, traits[i]);
      if found.None? {
        CollectErrorStays(traits, defs, i + 1);
        return Err(traits[i]);
      }
      var key := GroupKey(defs, traits[i]);
      grouped := grouped[key := grouped[key] + [TraitDef(traits[i], found.value.description)]];
    }
    assert traits[..|traits|] == traits;
    r := Ok(grouped);
  }

  function InGroup(defs: CampaignData, key: string): string -> bool
  {
    name => GroupKey(defs, name) == key
  }

  function Names(ts: seq<TraitDef>): (names: seq<string>)
    ensures |names| == |ts|
  {
    seq(|ts|, i requires 0 <= i < |ts| => ts[i].name)
  }

  predicate Described(ts: seq<TraitDef>, flat: seq<TraitDef>)
  {
    forall t :: t in ts ==> FindTrait(flat, t.name).Some? && FindTrait(flat, t.name).value.description == t.description
  }

  predicate AllDefined(traits: seq<string>, flat: seq<TraitDef>)
  {
    forall i :: 0 <= i < |traits| ==> FindTrait(flat, traits[i]).Some?
  }

  /** Grouping succeeds exactly when every name has a definition. */
  lemma {:induction false} CollectSucceeds(traits: seq<string>, defs: CampaignData)
    ensures Collect(traits, defs).Ok? <==> AllDefined(traits, FlatTraits(defs))
  {
    if |traits| > 0 {
      var init := traits[..|traits| - 1];
      CollectSucceeds(init, defs);
      if AllDefined(traits, FlatTraits(defs)) {
        assert AllDefined(init, FlatTraits(defs)) by {
          forall i | 0 <= i < |init| ensures FindTrait(FlatTraits(defs), init[i]).Some? {
            assert init[i] == traits[i];
          }
        }
      }
      if Collect(traits, defs).Ok? {
        forall i | 0 <= i < |traits| ensures FindTrait(FlatTraits(defs), traits[i]).Some? {
          if i < |init| {
            assert init[i] == traits[i];
          }
        }
      }
    }
  }

  /** A successful grouping is the grouping of all names but the last, with
      the last one's entry appended to its group. */
  lemma CollectLast(traits: seq<string>, defs: CampaignData)
    requires |traits| > 0 && Collect(traits, defs).Ok?
    ensures var init, name := traits[..|traits| - 1], traits[|traits| - 1];
      && Collect(init, defs).Ok? && FindTrait(FlatTraits(defs), name).Some?
      && var m, key := Collect(init, defs).value, GroupKey(defs, name);
         Collect(traits, defs).value == m[key := m[key] + [TraitDef(name, FindTrait(FlatTraits(defs), name).value.description)]]
  {
  }

  /** Each group lists, in input order, exactly the names that fall into it,
      each with the description of its first definition. */
  lemma {:induction false} CollectGroups(traits: seq<string>, defs: CampaignData, key: string)
    requires Collect(traits, defs).Ok? && key in Collect(traits, defs).value
    ensures Names(Collect(traits, defs).value[key]) == Filter(traits, InGroup(defs, key))
    ensures Described(Collect(traits, defs).value[key], FlatTraits(defs))
  {
    if |traits| > 0 {
      var init, name := traits[..|traits| - 1], traits[|traits| - 1];
      CollectLast(traits, defs);
      var m := Collect(init, defs).value;
      var entry := TraitDef(name, FindTrait(FlatTraits(defs), name).value.description);
      assert Names(m[key]) == Filter(init, InGroup(defs, key)) && Described(m[key], FlatTraits(defs)) by {
        CollectGroups(init, defs, key);
      }
      GroupStep(traits, defs, key, m[key], entry);
    }
  }

  /** One more name: its group gains its entry at the end, the others stay. */
  lemma GroupStep(traits: seq<string>, defs: CampaignData, k: string, group: seq<TraitDef>, entry: TraitDef)
    requires |traits| > 0
    requires Names(group) == Filter(traits[..|traits| - 1], InGroup(defs, k)) && Described(group, FlatTraits(defs))
    requires var name := traits[|traits| - 1];
      entry.name == name && FindTrait(FlatTraits(defs), name).Some?
      && FindTrait(FlatTraits(defs), name).value.description == entry.description
    ensures var group' := if GroupKey(defs, traits[|traits| - 1]) == k then group + [entry] else group;
      Names(group') == Filter(traits, InGroup(defs, k)) && Described(group', FlatTraits(defs))
  {
    if GroupKey(defs, traits[|traits| - 1]) == k {
      NamesAppend(group, entry);
      DescribedAppend(group, entry, FlatTraits(defs));
    }
  }

  lemma NamesAppend(group: seq<TraitDef>, entry: TraitDef)
    ensures Names(group + [entry]) == Names(group) + [entry.name]
  {
  }

  lemma DescribedAppend(group: seq<TraitDef>, entry: TraitDef, flat: seq<TraitDef>)
    requires Described(group, flat)
    requires FindTrait(flat, entry.name).Some? && FindTrait(flat, entry.name).value.description == entry.description
    ensures Described(group + [entry], flat)
  {
  }

  /** Groups of the empty input: no keys at all. */
  lemma GroupTraitsOfNothing(defs: CampaignData)
    ensures GroupTraitsSpec([], defs) == Ok(map[])
  {
  }

  /** On non-empty input that is all defined: exactly the three keys, each trait
      in exactly one group by the priority injury, talent, trait, group order
      following input order, and the group sizes adding up to the input's. */
  lemma GroupTraitsPartition(traits: seq<string>, defs: CampaignData)
    requires |traits| > 0 && AllDefined(traits, FlatTraits(defs))
    ensures GroupTraitsSpec(traits, defs).Ok?
    ensures var m := GroupTraitsSpec(traits, defs).value;
      && m.Keys == {InjuriesKey, TalentsKey, TraitsKey}
      && Names(m[InjuriesKey]) == Filter(traits, InGroup(defs, InjuriesKey))
      && Names(m[TalentsKey]) == Filter(traits, InGroup(defs, TalentsKey))
      && Names(m[TraitsKey]) == Filter(traits, InGroup(defs, TraitsKey))
      && |m[InjuriesKey]| + |m[TalentsKey]| + |m[TraitsKey]| == |traits|
  {
    CollectSucceeds(traits, defs);
    CollectGroups(traits, defs, InjuriesKey);
    CollectGroups(traits, defs, TalentsKey);
    CollectGroups(traits, defs, TraitsKey);
    ThreeGroupSizes(traits, defs);
  }

  lemma {:induction false} ThreeGroupSizes(traits: seq<string>, defs: CampaignData)
    ensures |Filter(traits, InGroup(defs, InjuriesKey))| + |Filter(traits, InGroup(defs, TalentsKey))|
            + |Filter(traits, InGroup(defs, TraitsKey))| == |traits|
  {
    if |traits| > 0 {
      ThreeGroupSizes(traits[..|traits| - 1], defs);
    }
  }

  /** A trait with no definition makes grouping fail at the first such name. */
  lemma GroupTraitsUndefined(traits: seq<string>, defs: CampaignData, i: nat)
    requires i < |traits| && FindTrait(FlatTraits(defs), traits[i]).None?
    requires forall j :: 0 <= j < i ==> FindTrait(FlatTraits(defs), traits[j]).Some?
    ensures GroupTraitsSpec(traits, defs) == Err(traits[i])
  {
    var pre := traits[..i + 1];
    CollectSucceeds(traits[..i], defs);
    assert AllDefined(traits[..i], FlatTraits(defs)) by {
      forall j | 0 <= j < i ensures FindTrait(FlatTraits(defs), traits[..i][j]).Some? {
        assert traits[..i][j] == traits[j];
      }
    }
    assert pre[..i] == traits[..i];
    CollectErrorStays(traits, defs, i + 1);
  }
}
