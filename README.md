# Army-list engine of the OPR army forge

This project models the engine behind a tabletop army-list builder and proves properties of that model. Players pick units from a faction's army book, add upgrade options, attach heroes to units and combine pairs of units. The engine does the following:

- derives sizes, points aggregates, display groups, toughness and the disabled upgrade sections of each unit;
- checks a list against the composition rules of its game system and reports an ordered list of messages;
- reduces a list to a minimal save record and rebuilds a list from one (save versions 2 and 3);
- prints a list as plain text;
- groups and renders special rules;
- normalises the army-book data it downloads;
- sorts campaign traits into injuries, talents and traits.

It also covers the small rules that the upgrade panel, the list view and the release notes compute inline.

Each module follows one source file:

| module | file | what it holds |
|---|---|---|
| `Basics` | — | Option/Result, decimal digits, number rendering, `join` |
| `Helpers` | `services/Helpers.ts` | `filter`/`map`, `distinct`, `groupBy`, `groupMap` (lodash's `groupBy` read in key order), `intersperse`, `sortBy`, the game-system maps |
| `Army` | — | the records the services read: rules, gains, options, sections, packages, units, army books, the list |
| `Rules` | `services/RulesService.ts` | `group`, `displayName` |
| `Units` | `services/UnitService.ts` | rule getters, `getSize`, `createUnitFromDefinition`, `mergeCombinedUnit`, `getItemRules`, `getFullUnitList`, `getGroupedDisplayUnits`, `getDisabledUpgradeSections`, `getTough` |
| `Validation` | `services/ValidationService.ts` | the threshold tables and `getErrors` |
| `Persistence` | `services/PersistenceService.ts` | `getSaveKey`, `getDataForSave`, `buildListFromSave` and its v2 and v3 builders |
| `TextExport` | `services/PersistenceService.ts` | `getListAsText` |
| `Catalogue` | `services/WebappApiService.ts` | `transformArmyBookData` |
| `Traits` | `services/TraitService.tsx` | `getFlatTraitDefinitions` (a class holding the memo) and `groupTraits` |
| `UpgradesView` | `views/upgrades/Upgrades.tsx` | `isSkirmish`, `isHero`, the package order, the offered sections, join candidates, the combine and join controls |
| `ListView` | `pages/view.tsx` | `listContainsSpecialRule`, `listContainsPyschic` |
| `ReleaseNotes` | `views/components/ReleaseNotes.tsx` | `isVersionGreaterThan` |

Code that loops and pushes is modelled as a method with a loop:

- `getErrors`, whose checks are split into one method per block of checks;
- the replay loops of the two save builders;
- `getDisabledUpgradeSections`;
- `groupTraits`;
- `distinct` and `groupBy`;
- the line writer of `getListAsText`.

Each such method is proved equal to a specification function. The lemmas then state what that function means.

`getFlatTraitDefinitions` writes a memo into a shared object. It is a method of the class `Traits.TraitDefinitions`, whose invariant is that every memoised list is the flat list of its system.

Two services are used but not part of this model: the upgrade service and the equipment service. Their functions become parameters of the members that call them:

- `total` is the points value of a unit (`calculateUnitTotal`);
- `apply` and `build` stand for applying an option and `buildUpgrades`;
- `matches` is `compareEquipment`.

The random ids of `nanoid` are also parameters.

## Model

| member | source | states |
|---|---|---|
| Basics.NatToString | services/ValidationService.ts:39 | a number printed in a message is a non-empty run of decimal digits |
| Basics.DigitsValueOfNatToString | services/ValidationService.ts:39 | reading a printed number back gives the number (round trip) |
| Basics.NatToStringInjective | services/ValidationService.ts:39 | different numbers never print alike |
| Basics.IntToString | services/RulesService.ts:18 | `toString` of an integer: the digits of a non-negative one, a leading minus otherwise |
| Basics.LeadingDigits | views/components/ReleaseNotes.tsx:311 | the prefix `parseInt` reads: all digits, and followed by a non-digit or the end |
| Basics.LeadingDigitsOfDigitsThen | views/components/ReleaseNotes.tsx:311 | a digit block followed by a non-digit is read exactly up to its end |
| Basics.Join | services/PersistenceService.ts:379 | joining no parts gives "", joining one part gives that part |
| Basics.JoinEmpty | services/PersistenceService.ts:338 | with a non-empty separator the joined text is empty exactly when there is nothing to join or a single empty part |
| Basics.JoinStartsWithFirst | services/PersistenceService.ts:379 | the joined text starts with the first part |
| Army.FindById | services/PersistenceService.ts:202 | `find` by catalogue id: the result is the first unit carrying the id; `None` only when no unit does |
| Helpers.Distinct | services/Helpers.ts:11-17 | the loop returns the first element of each key: no two results share a key, every input key is covered, and only input elements are returned |
| Helpers.DistinctByProperties | services/Helpers.ts:11-17 | each kept element is the first occurrence of its key; the result is a subsequence of the input (order kept); the keys present are exactly the input's |
| Helpers.GroupBy | services/Helpers.ts:3-8 | the loop's buckets have exactly the input's keys; each bucket is non-empty and holds the input's elements with that key, in input order |
| Helpers.BucketMembership | services/Helpers.ts:3-8 | an element is in the bucket of `k` exactly when it is in the input with key `k` |
| Helpers.BucketIsSubsequence | services/Helpers.ts:3-8 | each bucket keeps input order |
| Helpers.KeyOrderProperties | services/Helpers.ts:72-77 | the keys in `Object.keys` order are pairwise distinct and are exactly the keys of the input |
| Helpers.GroupMap | services/Helpers.ts:72-77 | `groupMap` yields exactly one output per distinct key |
| Helpers.GroupsPartition | services/Helpers.ts:72-77 | group `j` holds exactly the elements with the `j`-th key; every element lies in exactly one group; groups are non-empty and keep input order |
| Helpers.GroupsSizes | services/Helpers.ts:72-77 | grouping loses and duplicates nothing: the group sizes add up to the input length |
| Helpers.GroupsWeights | services/PersistenceService.ts:332-335 | summing a weight per group gives the same total as summing it over the input |
| Helpers.IntersperseShape | services/Helpers.ts:79-82 | empty for no input; otherwise length 2n-1 with the originals at even and the separator at odd positions |
| Helpers.Intersperse | services/Helpers.ts:79-82 | the result holds only elements of the input and the separator; its shape is `IntersperseShape` |
| Helpers.SortBy | services/UnitService.ts:160 | `_.sortBy` keeps the length |
| Helpers.SortByProperties | services/UnitService.ts:160 | the result is ordered by the key, is a permutation of the input, and is stable: elements with equal keys keep input order |
| Helpers.GameSystemToSlug | services/Helpers.ts:27-48 | a slug exists exactly for the nine listed game systems |
| Helpers.GameSystemToEnum | services/Helpers.ts:50-62 | a numeric id exists exactly for the nine listed game systems |
| Helpers.GameSystemMapsInjective | services/Helpers.ts:27-62 | two different listed systems never share a slug or a numeric id |
| Helpers.SlugsDistinct | services/Helpers.ts:27-48 | two different listed systems never share a slug |
| Helpers.SlugNamesSystem | services/Helpers.ts:27-48 | every slug reads back as its game system (a left inverse exists) |
| Helpers.EnumsDistinct | services/Helpers.ts:50-62 | two different listed systems never share a numeric id |
| Rules.StackedRating | services/RulesService.ts:13 | a stacked rating is always a number or `NaN`, never absent |
| Rules.StackedRatingSum | services/RulesService.ts:9-13 | when every rule of a "Tough"/"Impact" group is rated, the grouped rating is the sum of the ratings |
| Rules.MaxRating | services/RulesService.ts:14 | the maximum of a non-empty group is never absent |
| Rules.MaxRatingIsMaximum | services/RulesService.ts:14 | for rated rules the grouped rating is one of the ratings and no smaller than any of them |
| Rules.MaxRatingUnratedIsNaN | services/RulesService.ts:14 | one unrated rule in a non-stacking group makes `Math.max` give `NaN` |
| Rules.GroupNamesDistinct | services/RulesService.ts:6-7 | `group` yields one entry per distinct rule name, in order of first appearance, and the names are exactly those of the input |
| Rules.GroupEntry | services/RulesService.ts:7-19 | entry `j` is built from every rule with the `j`-th name; it keeps the first rule's name, modifier and condition; its count is 0 for a rated stacking rule and the group size otherwise |
| Rules.DisplayNameCountPrefix | services/RulesService.ts:23-34 | a count of at most 1 adds nothing; the rendering without a count starts with the rule's name |
| Rules.DisplayNameCountRoundTrip | services/RulesService.ts:25 | reading the leading "Nx " of a rendered rule gives back the count when it is above 1, and 1 otherwise |
| Rules.DisplayNameExamples | services/RulesService.ts:23-34 | "Tough(3)", "Defense +1", "2x AP(+1) in melee" and "3x Fear" |
| Rules.RatedExample | services/RulesService.ts:29 | a rated rule renders as "Tough(3)" |
| Rules.DefenseExample | services/RulesService.ts:27-28 | Defense renders as "Defense +1" |
| Rules.ModifiedExample | services/RulesService.ts:25-34 | count, "+" modifier and condition render as "2x AP(+1) in melee" |
| Rules.UnratedExample | services/RulesService.ts:25-30 | an unrated rule gets no rating text: "3x Fear" |
| Rules.Group | services/RulesService.ts:6-20 | one entry per distinct rule name; the entries are characterised by `GroupNamesDistinct` and `GroupEntry` |
| Rules.DisplayName | services/RulesService.ts:23-34 | a count of at most 1 adds nothing, and the rendering always ends with the rule rendered without a count; the count read back is `DisplayNameCountRoundTrip` |
| Units.OptionGainsMembership | services/UnitService.ts:48-50 | a gain is collected exactly when some selected option grants it |
| Units.RulesOfMembership | services/UnitService.ts:50-51 | exactly the "ArmyBookRule" gains are kept, as rules |
| Units.RuleAndDefenseRulesMembership | services/UnitService.ts:60 | exactly the rule and defense gains are kept |
| Units.ItemContentRulesMembership | services/UnitService.ts:57-62 | a rule comes from items exactly when some item of the loadout that adds no model holds it as a rule or defense gain |
| Units.UpgradedRulesMembership | services/UnitService.ts:54-65 | the upgraded rules are exactly the rule gains of selected options plus the rule/defense content of items that add no model |
| Units.GetSize | services/UnitService.ts:71-74 | size is the base size plus the number of selected options that add a model |
| Units.ExtraModelsIsFilterSize | services/UnitService.ts:72 | the extra models are the number of selected options whose `isModel` is set |
| Units.DefaultCount | services/UnitService.ts:85 | an absent equipment count becomes the unit size; a present one is kept |
| Units.CreateUnitFromDefinition | services/UnitService.ts:76-92 | fresh unit: the given selection id; no upgrades, loadout or traits; not combined or joined; xp 0, no notes; catalogue fields kept; every equipment entry kept with its count defaulted to the size |
| Units.CreatedUnitSize | services/UnitService.ts:76-92 | a fresh unit's size is the catalogue size, and for a non-empty unit every equipment count is positive |
| Units.MergeCombinedUnit | services/UnitService.ts:94-104 | no partner: unchanged; otherwise sizes add and the loadout and selections are the root's followed by the partner's, all else the root's |
| Units.MergedSize | services/UnitService.ts:94-104 | a merged pair's size (with extra models) is the sum of both units' sizes |
| Units.GetItemRules | services/UnitService.ts:106-124 | one entry per distinct item name |
| Units.SumTotalsPartition | services/UnitService.ts:139-146 | the cost of the heroes plus the cost of the other attached units is the cost of all attached units |
| Units.FullUnitOfProperties | services/UnitService.ts:128-158 | per root: hasJoined exactly when something is attached; heroes are exactly the attached heroes; the joined partner is attached and not a hero; heroes and partners split the attached units; unitPointsAll = unitPoints + the heroes' cost; unitPoints and unitSize are at least the root's own |
| Units.CombinedEntrySize | services/UnitService.ts:135-148 | with combining and at most one partner, the merged unit's size equals the entry's unitSize |
| Units.FullUnitOf | services/UnitService.ts:128-158 | hasJoined exactly when something is attached; size and both point totals at least the root's own; heroes are heroes of the list; the rest is `FullUnitOfProperties` |
| Units.FullUnitListShape | services/UnitService.ts:125-161 | exactly one entry per root unit (the multiset of the roots' entries), ordered by sortId; entries with equal sortId keep list order, as lodash's stable `sortBy` keeps them |
| Units.GetFullUnitList | services/UnitService.ts:125-161 | one entry per root unit; order and contents are `FullUnitListShape` |
| Units.GetGroupedDisplayUnits | services/UnitService.ts:163-188 | one output group per tagged group |
| Units.DisplayGroupsCover | services/UnitService.ts:163-187 | every entry lies in exactly one display group, and groups hold only input entries |
| Units.DisplayGroupOfJoinedEntry | services/UnitService.ts:166-187 | an entry with attached units gets its own tie-breaker and is alone in its group |
| Units.DisplayGroupAgrees | services/UnitService.ts:164-187 | entries in one group share id, custom name, join target, traits, xp and the upgrade and loadout keys |
| Units.StripCount | services/UnitService.ts:190 | removing the count leaves a suffix of the target |
| Units.StripCountOfCountedName | services/UnitService.ts:190 | "Nx name" becomes "name" |
| Units.StripCountAfterDigits | services/UnitService.ts:190 | any digit block followed by "x " is removed, and only that |
| Units.StripCountOfPlainName | services/UnitService.ts:190 | a target that does not start with a digit is kept as is |
| Units.FindPackage | services/UnitService.ts:195 | the result is the first package with that uid; `None` only when none has it |
| Units.ReportMissingTargets | services/UnitService.ts:219-236 | the inner loop pushes exactly the specified reports for one section |
| Units.GetDisabledUpgradeSections | services/UnitService.ts:192-240 | the nested loops return exactly the specified disabled list |
| Units.MissingTargetsMembership | services/UnitService.ts:219-236 | a section's uid is reported exactly when one of its targets, count stripped, is in neither the equipment nor the package gains |
| Units.SectionReportMembership | services/UnitService.ts:218-236 | a section without `replaceWhat` reports nothing; otherwise as above |
| Units.DisabledAmongMembership | services/UnitService.ts:218-237 | a uid is in the result exactly when some section reports it |
| Units.DisabledUpgradeSectionsMembership | services/UnitService.ts:192-240 | a uid is disabled exactly when some section of the unit's packages reports it against the unit's equipment and every gain (and item content) of those packages |
| Units.MissingTargetsCount | services/UnitService.ts:219-235 | a section is reported once per unreachable target, so it can appear several times |
| Units.DisabledUpgradeSections | services/UnitService.ts:192-240 | what `getDisabledUpgradeSections` returns; its membership is `DisabledUpgradeSectionsMembership` |
| Units.AddNumbers | services/UnitService.ts:247-254 | the sum is a number exactly when both operands are (`NaN` spreads) |
| Units.ToughSumConcat | services/UnitService.ts:245-257 | the Tough sum over two rule lists is the sum of their Tough sums |
| Units.ToughOverAllRules | services/UnitService.ts:242-260 | toughness is the Tough total over base and upgraded rules, 1 when that is 0 or `NaN` |
| Units.ToughSumRated | services/UnitService.ts:245-257 | when every Tough rule is rated the sum is a number |
| Units.ModelItemDoesNotToughen | services/UnitService.ts:252 | an item that adds a model (`isModel`, line 57) leaves toughness unchanged |
| Units.ToughItemAddsRating | services/UnitService.ts:252-259 | an item that adds no model and holds Tough(n) adds n to toughness |
| Units.GetTough | services/UnitService.ts:242-260 | toughness is never 0 (`baseTough \|\| 1`); its value is `ToughOverAllRules` |
| Validation.UnitPointThreshold | services/ValidationService.ts:7-13 | unit thresholds are positive where defined |
| Validation.HeroPointThreshold | services/ValidationService.ts:14-20 | hero thresholds are positive where defined |
| Validation.DuplicateUnitThreshold | services/ValidationService.ts:21-27 | duplicate thresholds are positive where defined |
| Validation.ThresholdTablesAgree | services/ValidationService.ts:7-27 | all three tables cover exactly the battle and skirmish systems, and no system is both |
| Validation.FindBySelectionId | services/ValidationService.ts:105 | the result is the first unit with that selection id; `None` only when none has it |
| Validation.PointsByArmy | services/ValidationService.ts:135-138 | one total per army present |
| Validation.GetErrors | services/ValidationService.ts:31-145 | no army or no list gives no messages; otherwise the messages of the failed checks, in order |
| Validation.RecordCountChecks | services/ValidationService.ts:38-73 | records the points, hero and unit-count checks as specified |
| Validation.RecordCopyAndCostChecks | services/ValidationService.ts:50-79 | records the copy-limit and 33% checks as specified |
| Validation.RecordSystemChecks | services/ValidationService.ts:90-129 | records the battle, skirmish and aofs checks as specified |
| Validation.RecordBattleChecks | services/ValidationService.ts:94-106 | records the four attachment checks as specified |
| Validation.RecordFactionChecks | services/ValidationService.ts:131-142 | records the faction checks as specified |
| Validation.CountChecksMembers | services/ValidationService.ts:38-73 | points message iff limit > 0 and points > limit; hero message iff heroes > floor(points / hero threshold); unit message iff root units > floor(points / unit threshold) |
| Validation.CopyAndCostMembers | services/ValidationService.ts:50-79 | the copies message iff some catalogue id exceeds the copy limit; the 33% message iff some entry's unitPointsAll exceeds a third |
| Validation.BattleChecksMembers | services/ValidationService.ts:94-106 | each attachment message iff its condition holds |
| Validation.SystemChecksMembers | services/ValidationService.ts:90-129 | attachment messages only in battle systems; the model-count message only in skirmish systems with sizes > floor(points/20); the command-upgrade message only in aofs with more than one carrier |
| Validation.FactionChecksMembers | services/ValidationService.ts:131-142 | more than two books always reports; a mixed list with points reports when no army reaches 60% |
| Validation.ViolationsMembers | services/ValidationService.ts:31-145 | every message appears exactly when its check fails (all 13 checks, both directions) |
| Validation.ViolationsInCheckOrder | services/ValidationService.ts:36-144 | messages come in the order the checks run, none twice |
| Validation.IdsOverLimitMembers | services/ValidationService.ts:52-58 | an id is over the limit exactly when more of its counted copies exist than the limit |
| Validation.OverLimitExists | services/ValidationService.ts:52-75 | some id is over the limit exactly when some counted unit has too many copies |
| Validation.CopiesTooManyMeans | services/ValidationService.ts:50-76 | combined root units excluded, the copies check fails exactly when some id has more than 1 + floor(points / threshold) copies |
| Validation.CopiesOfOneUnit | services/ValidationService.ts:50-75 | a list of copies of one unit fails exactly when it has more copies than the limit |
| Validation.CopyLimitAtTwoThousand | services/ValidationService.ts:21-27 | gf at 2000 points: the limit is 3, so 3 copies pass and a 4th fails |
| Validation.JoinedIdsMembers | services/ValidationService.ts:46-49 | an id is joined exactly when a hero of the list targets it and it is in the list |
| Validation.HeroJoinsSingleMeans | services/ValidationService.ts:99-100 | fails exactly when a hero is joined to a unit of size 1 |
| Validation.TwoHeroesJoinedMeans | services/ValidationService.ts:102-103 | fails exactly when two different heroes are joined to the same existing unit |
| Validation.HeroJoinsOtherFactionMeans | services/ValidationService.ts:105-106 | fails exactly when a joined hero's target belongs to another army |
| Validation.PointsByArmyMembers | services/ValidationService.ts:135-138 | each entry is the summed price of one army's units, and every army has one |
| Validation.BattleAndSkirmishExclusive | services/ValidationService.ts:90-114 | attachment messages and the model-count message never appear together |
| Validation.BattleOnlyChecks | services/ValidationService.ts:94-106 | an attachment message implies a battle system |
| Validation.ModelCountSkirmishOnly | services/ValidationService.ts:107-114 | the model-count message implies a skirmish system |
| Validation.Violations | services/ValidationService.ts:31-145 | the failed checks of `getErrors`; which ones and in what order are `ViolationsMembers` and `ViolationsInCheckOrder` |
| Persistence.GetSaveKey | services/PersistenceService.ts:17-22 | the key is "AF_Save_" followed by the creation time |
| Persistence.SaveKeyInjective | services/PersistenceService.ts:20-22 | different creation times give different keys |
| Persistence.SaveUpgrades | services/PersistenceService.ts:77-81 | one stored pair per selection |
| Persistence.SaveUnit | services/PersistenceService.ts:72-87 | identity, name, combine/join, xp, traits and notes are kept; each selection becomes (instanceId, section uid, option id) in order |
| Persistence.SaveUnits | services/PersistenceService.ts:72 | one saved unit per unit |
| Persistence.GetDataForSave | services/PersistenceService.ts:69-89 | the list fields are kept and every unit is reduced in order |
| Persistence.NewSaveData | services/PersistenceService.ts:47-58 | a new record carries save version 3 and the reduced list |
| Persistence.FindSection | services/PersistenceService.ts:212 | the result is the first section carrying the uid; `None` only when no section carries it, always for an absent uid |
| Persistence.FindOption | services/PersistenceService.ts:213 | the result is the first option of the section with that id; `None` only when none has it |
| Persistence.FindLegacyOption | services/PersistenceService.ts:180 | v2 finds the first option matching either stored id; `None` only when none matches |
| Persistence.Overlay | services/PersistenceService.ts:203-209 | the saved fields override the definition; equipment is the definition's; selections and loadout are empty |
| Persistence.ReplayV3ErrorStays | services/PersistenceService.ts:211-219 | once a selection throws, later selections change nothing |
| Persistence.ReplaySelectionsV3 | services/PersistenceService.ts:211-219 | the loop replays the stored pairs in order: a missing section throws, a missing option is skipped, others go through `apply` |
| Persistence.BuildListFromSaveV3 | services/PersistenceService.ts:193-223 | the loop rebuilds the units as specified, the first failure throwing |
| Persistence.RebuildUnitsV3ErrorStays | services/PersistenceService.ts:201-221 | a unit that throws ends the rebuild |
| Persistence.RebuildUnitV3 | services/PersistenceService.ts:197-220 | one v3 unit: an id no book defines fails with UnknownUnit, and a rebuilt unit has a definition with its id in some book; the round trip is `SaveThenRebuildUnit` |
| Persistence.ReplaySelectionsV2 | services/PersistenceService.ts:179-187 | the v2 loop skips unmatched options and applies the rest in order |
| Persistence.BuildListFromSaveV2 | services/PersistenceService.ts:157-191 | only the first book is used, and the armyId is forced to it |
| Persistence.RebuildUnitsV2ErrorStays | services/PersistenceService.ts:168-189 | a unit that throws ends the v2 rebuild |
| Persistence.RebuildUnitV2 | services/PersistenceService.ts:168-189 | one v2 unit from the first book: it fails, with UnknownUnit, exactly when that book has no unit with the saved id |
| Persistence.BuildListFromSave | services/PersistenceService.ts:148-155 | version 3 goes to the v3 builder, version 2 to the v2 builder, and any other version gives null |
| Persistence.ReplaySavedSelections | services/PersistenceService.ts:211-219 | replaying the pairs `getDataForSave` stores (lines 77-81) for resolvable selections applies exactly the original selections in their original order |
| Persistence.SaveThenRebuildUnit | services/PersistenceService.ts:197-220 | a unit reduced by `getDataForSave` (lines 69-89) is rebuilt from its definition with its identity fields back and its selections re-applied |
| Persistence.RebuildUnitsEach | services/PersistenceService.ts:201-221 | when every unit rebuilds, the result has one unit per saved unit, position by position |
| Persistence.SaveThenRebuildUnits | services/PersistenceService.ts:201-221 | saving (lines 69-89) then rebuilding every unit succeeds and keeps order and count |
| Persistence.SaveThenRebuildList | services/PersistenceService.ts:193-223 | saving a list (lines 69-89) and rebuilding it (v3) gives back the list's fields and one rebuilt unit per unit, in order |
| TextExport.CountPrefix | services/PersistenceService.ts:336 | "Nx " is printed exactly when the count is above 1 |
| TextExport.BareWeaponLabel | services/PersistenceService.ts:317-327 | a weapon label, as written and corrected, is the bare name exactly when it has no range, no attacks and no rules |
| TextExport.IndexedRuleNamesMiscount | services/PersistenceService.ts:321 | as written, a weapon's third rule reads back as two of it |
| TextExport.ConstructLabelAsWrittenExample | services/PersistenceService.ts:321 | as written, AP(1), Blast(3), Rending prints "AP(1), Blast(3), 2x Rending" |
| TextExport.ConstructLabelExample | services/PersistenceService.ts:321 | corrected, the same rules print "AP(1), Blast(3), Rending" |
| TextExport.BareRuleNamesCountOne | services/PersistenceService.ts:321 | corrected, every rule of a weapon reads back as one |
| TextExport.WeaponLabel | services/PersistenceService.ts:317-332 | `getWeapons` groups and prints by `constructLabel` as written |
| TextExport.ExportedWeaponLabelExample | services/PersistenceService.ts:317-336 | the export prints a rifle with rules AP(1), Blast(3), Rending as "Rifle (A1, AP(1), Blast(3), 2x Rending)" |
| TextExport.ScaledContent | services/PersistenceService.ts:330 | an item yields one scaled piece per content entry; other gains yield nothing |
| TextExport.AllWeaponsMembership | services/PersistenceService.ts:328-331 | a weapon is listed exactly when it is in the loadout or inside an item of it, its count multiplied by the item's |
| TextExport.ItemContentsMembership | services/PersistenceService.ts:330 | the flattened content is exactly the scaled pieces of the loadout's items |
| TextExport.WeaponParts | services/PersistenceService.ts:332-337 | one part per distinct label, the label being `constructLabel` as written |
| TextExport.WeaponCountsPreserved | services/PersistenceService.ts:332-335 | merging by label loses no weapon: the shown counts add up to the counts of all weapons |
| TextExport.WeaponPartShape | services/PersistenceService.ts:333-337 | part `j` is the summed count of the weapons with the `j`-th as-written label (printed when above 1), then that label; labels do not repeat |
| TextExport.GetWeapons | services/PersistenceService.ts:328-339 | the weapon parts joined by ", "; parts are `WeaponPartShape` and `WeaponCountsPreserved` |
| TextExport.GetRules | services/PersistenceService.ts:341-355 | grouped rules, item rules, then traits, joined by ", "; each part is stated where it is defined |
| TextExport.HeroLines | services/PersistenceService.ts:371-374 | three lines per hero |
| TextExport.GroupLines | services/PersistenceService.ts:368-377 | three lines per hero plus two for the group's unit |
| TextExport.ListGroupsNonEmpty | services/PersistenceService.ts:357-376 | no display group is empty, so `group[0]` always exists |
| TextExport.WriteHeroLines | services/PersistenceService.ts:371-374 | the hero loop writes each hero's block in order |
| TextExport.WriteGroupLines | services/PersistenceService.ts:369-376 | one group's lines as specified |
| TextExport.WriteGroupsLines | services/PersistenceService.ts:368-377 | the group loop writes every group in order |
| TextExport.GetListAsText | services/PersistenceService.ts:311-380 | the text is the header and every group's lines, joined by newlines; weapons are printed with the as-written label |
| TextExport.TextStartsWithHeader | services/PersistenceService.ts:313-379 | the text starts with "++ name [Npts] ++" |
| TextExport.GroupLinesShape | services/PersistenceService.ts:371-376 | each hero gives a profile line priced alone, a weapon line and "# Joined to:"; then the group's first unit, counted by the group size and priced by unitPoints |
| TextExport.GroupLinesHero | services/PersistenceService.ts:371-374 | the three lines of hero `k` sit at positions 3k to 3k+2 |
| TextExport.GroupLinesUnit | services/PersistenceService.ts:376 | the last two lines are the group unit's, ending the group with a blank line |
| TextExport.HeroLinesAt | services/PersistenceService.ts:371-374 | hero `k`'s profile, weapon and "# Joined to:" lines are at 3k, 3k+1, 3k+2 |
| Catalogue.SomeGainIsMusicianMeans | services/WebappApiService.ts:95 | true exactly when some gain's lower-cased name is "musician" |
| Catalogue.CommandGroupMeans | services/WebappApiService.ts:94-95 | a section is a command group exactly when some option has such a gain |
| Catalogue.MusicianExamples | services/WebappApiService.ts:95 | letter case does not matter, a longer name does |
| Catalogue.TransformPackages | services/WebappApiService.ts:90-109 | packages keep their number, order and uid, and each keeps its number of sections |
| Catalogue.TransformedOption | services/WebappApiService.ts:90-109 | counts and order of sections and options kept; each option points at its section; the five server fields are gone; the option's own fields kept; isCommandGroup set exactly for musician sections |
| Catalogue.TransformArmyBookData | services/WebappApiService.ts:88-124 | unit and package counts and the book's own fields are kept |
| Catalogue.TransformedUnit | services/WebappApiService.ts:113-118 | unit `i` gets sortId `i`, the requested armyId, no selections and its disabled sections (the same against raw or transformed packages), other fields kept |
| Catalogue.DisabledSectionsUnaffected | services/WebappApiService.ts:118 | normalising the packages does not change any unit's disabled sections |
| Traits.FlatTraitsMembership | services/TraitService.tsx:31 | a definition is in the flat list exactly when it is a unit trait, an injury, a talent or in some skill set |
| Traits.TraitDefinitions.constructor | services/TraitService.tsx:28-34 | starts with the given definitions and no memo |
| Traits.TraitDefinitions.GetFlatTraitDefinitions | services/TraitService.tsx:28-34 | returns the flat list of the system, stores it in the memo, keeps every other memo entry and the invariant that every memo entry is its system's flat list |
| Traits.FindTrait | services/TraitService.tsx:54-59 | the result is the first definition with that name; `None` only when none has it |
| Traits.GroupKey | services/TraitService.tsx:54-66 | injuries first, then talents, everything else a trait |
| Traits.AddTrait | services/TraitService.tsx:59-67 | keeps the three keys; fails exactly when the name has no definition |
| Traits.Collect | services/TraitService.tsx:47-68 | a success has exactly the three keys |
| Traits.CollectErrorStays | services/TraitService.tsx:57-59 | after the first undefined name nothing else matters |
| Traits.GroupTraits | services/TraitService.tsx:42-71 | the loop returns exactly the specified grouping |
| Traits.CollectSucceeds | services/TraitService.tsx:57-68 | grouping succeeds exactly when every name has a definition |
| Traits.CollectLast | services/TraitService.tsx:57-67 | one more name appends its entry, with its description, to its group only |
| Traits.CollectGroups | services/TraitService.tsx:57-68 | each group's names are the input names of that group in input order, each with its description |
| Traits.GroupTraitsOfNothing | services/TraitService.tsx:45 | no traits give a dictionary with no keys |
| Traits.GroupTraitsPartition | services/TraitService.tsx:47-68 | with all names defined: the three keys; each group is its names in input order; the group sizes add up to the input length |
| Traits.ThreeGroupSizes | services/TraitService.tsx:63-66 | every name lands in exactly one of the three groups |
| Traits.GroupTraitsUndefined | services/TraitService.tsx:59 | the first undefined name makes grouping fail with that name |
| UpgradesView.IsSkirmish | views/upgrades/Upgrades.tsx:61 | skirmish means any system other than gf, aof and aofr; every skirmish table system is one |
| UpgradesView.FindRuleIndex | views/upgrades/Upgrades.tsx:63 | `findIndex`: the first position of the name, or -1 exactly when absent |
| UpgradesView.SelectedIsHero | views/upgrades/Upgrades.tsx:62-64 | a selected unit is a hero exactly when it has a "Hero" rule |
| UpgradesView.UpgradeSetsOrder | views/upgrades/Upgrades.tsx:115-121 | heroes keep the order; others rotate by one, the first package shown last; nothing lost or added |
| UpgradesView.UpgradeSets | views/upgrades/Upgrades.tsx:115-121 | the same packages, rearranged; the order is `UpgradeSetsOrder` |
| UpgradesView.ShownSectionsMembership | views/upgrades/Upgrades.tsx:204-209 | a section is shown exactly when it belongs to the packages and is not disabled |
| UpgradesView.ShownSectionsOrder | views/upgrades/Upgrades.tsx:208-259 | hero sections come before all others, and both parts keep package order |
| UpgradesView.ShownSections | views/upgrades/Upgrades.tsx:204-209 | only sections of the packages that are not disabled; membership and order are `ShownSectionsMembership` and `ShownSectionsOrder` |
| UpgradesView.UnitsWithAttachedHeroesMembership | views/upgrades/Upgrades.tsx:140-143 | an id is listed exactly when a hero of the list is joined to it |
| UpgradesView.JoinCandidatesMeans | views/upgrades/Upgrades.tsx:168-176 | candidates are the root units of the selected unit's army; in competitive play they also have size > 1 and no hero unless they are the current target; list order kept |
| UpgradesView.JoinCandidates | views/upgrades/Upgrades.tsx:168-176 | only root units of the list; exactly which is `JoinCandidatesMeans` |
| UpgradesView.JoinMenuExcludesSelected | views/upgrades/Upgrades.tsx:190-191 | the selected unit is never offered to itself |
| UpgradesView.ControlsExclusive | views/upgrades/Upgrades.tsx:145-182 | never both controls; neither in preview or outside battle systems |
| UpgradesView.CombineControlShown | views/upgrades/Upgrades.tsx:145-149 | shown only outside preview, in a battle system, for a unit that is not a hero |
| UpgradesView.JoinControlShown | views/upgrades/Upgrades.tsx:178-182 | shown only outside preview, in a battle system, for a hero |
| ListView.SomeRuleNamedMeans | pages/view.tsx:253 | `some` by name is true exactly when a rule of that name is present |
| ListView.UnitHasRuleMeans | pages/view.tsx:251-254 | a unit carries a rule exactly when its own or upgraded rules include it |
| ListView.ListContainsSpecialRuleMeans | pages/view.tsx:250-254 | true exactly when some unit carries the rule; false for no units |
| ListView.ListContainsPsychicMeans | pages/view.tsx:245-248 | true exactly when some unit is a Psychic or a Wizard |
| ListView.ListContainsSpecialRuleMonotone | pages/view.tsx:251 | adding units before or after never removes a found rule |
| ListView.ListContainsSpecialRule | pages/view.tsx:250-255 | `listContainsSpecialRule`; its meaning is `ListContainsSpecialRuleMeans` |
| ReleaseNotes.Split | views/components/ReleaseNotes.tsx:308-309 | `split` gives at least one part, none containing the separator |
| ReleaseNotes.SplitJoin | views/components/ReleaseNotes.tsx:308-309 | splitting and joining again gives the string back |
| ReleaseNotes.ParseInt | views/components/ReleaseNotes.tsx:311-313 | `NaN` exactly when the part does not start with a digit |
| ReleaseNotes.AsWrittenNotAntisymmetric | views/components/ReleaseNotes.tsx:311-312 | as written, "0.9.0" and "1.0.0" are each greater than the other |
| ReleaseNotes.AsWrittenIrreflexive | views/components/ReleaseNotes.tsx:307-315 | no version is greater than itself |
| ReleaseNotes.VersionOrderAntisymmetric | views/components/ReleaseNotes.tsx:311-314 | corrected, never greater both ways and never greater than itself |
| ReleaseNotes.VersionOrderTransitive | views/components/ReleaseNotes.tsx:311-314 | corrected, on well-formed versions the order is transitive |
| ReleaseNotes.VersionOrderTotal | views/components/ReleaseNotes.tsx:311-314 | corrected, well-formed versions that differ are ordered one way |
| ReleaseNotes.CorrectedImpliesAsWritten | views/components/ReleaseNotes.tsx:311-314 | whatever the corrected comparison calls greater, the code as written does too |
| ReleaseNotes.CorrectedExample | views/components/ReleaseNotes.tsx:311-314 | corrected, only "1.0.0" is greater than "0.9.0" |
| ReleaseNotes.IsVersionGreaterThanAsWritten | views/components/ReleaseNotes.tsx:307-315 | `isVersionGreaterThan` as written; its failure is `AsWrittenNotAntisymmetric` |
| ReleaseNotes.IsVersionGreaterThan | views/components/ReleaseNotes.tsx:307-315 | the comparison as evidently intended, lexicographic on the three parts; its order laws are `VersionOrderAntisymmetric`, `VersionOrderTransitive` and `VersionOrderTotal` |

## Left out

- The upgrade and equipment services (`apply`, `buildUpgrades`, `calculateUnitTotal`, `compareEquipment`) are not part of this model. They are parameters, and nothing is assumed about them. `calculateUnitTotal` is taken as non-negative.
- `nanoid` ids are parameters. The display tie-breaker (`heroBreaker`) is the entry's position, which is unique like a fresh id.
- Storage, clipboard, download, network and the asynchronous loaders are I/O and are not modelled. This covers `createSave`, `updateSave`, `toggleFavourite`, `copyList`, `delete`, `download`, `load*`, `copyAsText`, the fetch and cache code, and the view preferences. Only the records they build (`NewSaveData`) and the pure rebuild are kept.
- The in-place `.sort` of selections and loadout inside `getGroupedDisplayUnits` uses an inconsistent comparator, so its result depends on the engine's sort algorithm. The display key takes these as multisets, a canonical form that does not depend on order.
- TextExport.GetListAsText: lists upgrade rules in selection order and weapons and items in loadout order. The source prints them in the order the in-place sort of `getGroupedDisplayUnits` (UnitService.ts:171, 177) leaves behind, which depends on the engine's sort algorithm. For two selections of one section, the printed rules can come out in the other order.
- `Object.keys` order is insertion order of the keys. That holds for the string keys used here, and it is what `KeyOrder` models. Integer-like keys, which JavaScript lists first, are not modelled.
- Floating point:
  - `points * 0.3333` is restated as `unitPointsAll * 10000 > points * 3333`;
  - `x / points * 100 >= 60` is restated as `100 * x >= 60 * points`.
  Both are exact over the reals. Rounding differences of double arithmetic are not modelled.
- Ratings are integers or `NaN`, not strings. `parseInt` of a rating is the integer itself. Whitespace, signs and trailing text in rating strings are not modelled.
- Version parts use `parseInt` on non-negative digit runs. Leading whitespace and signs are not modelled.
- `toLocaleLowerCase` is modelled on ASCII letters only.
- `\s` in the count pattern is the ECMAScript whitespace set. The count pattern allows only ASCII digits.
- Counts that a record may lack (`count`, `xp`) are `nat`, with 0 for "absent". The source's `||` fallbacks treat 0 and absent alike. A `NaN` count is not modelled.
- `getErrors` is modelled as recording the failed checks in order and then rendering each as its message string. The messages themselves are in `Validation.Message`.
- A game system outside the threshold tables reads `undefined`. The checks depending on it never fire, and the model returns `None` for such a system.
- The `isPsychic` description regex of the upgrade panel, the nested-rule regexes of the list view and the rules card, and the rule-definition regex are not modelled. They are regex-driven presentation.
- `apply` mutates the unit in the source. Here it is a function returning the new unit.
- The `upgradeSets` splice is modelled on values. `originalUpgradeSets` is a local array, so no aliasing is lost. `filter(s => !!s)` after the rotation only removes the `undefined` that an empty list would produce.
- The join menu's `t != selectedUnit` compares object identity in the source. The model compares values, which can differ only when two units of a list are equal field by field. Distinct selection ids rule that out.
- Upgrade panel join targets and selected units are `Option<Unit>`. The dispatching handlers (`joinToUnit`, `toggleCombined`) are presentation and are not modelled.
- Traits.TraitDefinitions.GetFlatTraitDefinitions: returns `None` for a game system without definitions. The source throws there, reading `["all"]` of undefined.
- `Traits.GroupTraits` takes the definitions of the current system directly. The memo is modelled separately in the class `Traits.TraitDefinitions`. In the source, a trait with no definition throws on `.description`. The model returns `Err(name)`.
- In the source, a saved unit with no definition, or a v3 selection whose section is missing, throws. The model returns an `Err`, and the first failure ends the rebuild.
- The version 2 save is not given a round-trip property: version 2 records come from older app versions, and only their rebuilding is modelled.
- Units.GetItemRules: only "one entry per distinct item name" is stated. The summed count and the `affects === "all"` switch are defined but not proved separately.
- Units.GetGroupedDisplayUnits: its own contract gives only the number of groups. Membership, separation and agreement are stated about the tagged groups by `DisplayGroupsCover`, `DisplayGroupOfJoinedEntry` and `DisplayGroupAgrees`.
- TextExport.GetRules and TextExport.GetWeapons carry no contract of their own. The weapon part is characterised by `WeaponPartShape` and `WeaponCountsPreserved`. The rule part is built from `Rules.Group`, `Units.GetItemRules` and the traits, each stated where it is defined.
- TextExport.ConstructLabelAsWrittenExample: the miscount is shown on the joined rule list of a weapon, which is the part of the label that differs. `ExportedWeaponLabelExample` shows it in a whole label as the export prints it.
- The export prints weapons with `constructLabel` as written, miscount included. The corrected `ConstructLabel` is defined and proved (`BareRuleNamesCountOne`), but no corrected export is built on it.
- Presentation, routing, the Redux store and the PWA configuration are not part of this model. So are the duplicates of modelled logic in view files: `toughFromUnit`, the campaign trait counting and the equipment tables.

## Findings

| source | as written | input that shows it | evidently intended | confidence | as-written member | corrected member |
|---|---|---|---|---|---|---|
| services/PersistenceService.ts:321 | `item.specialRules?.map(RulesService.displayName)` passes `map`'s index as `displayName`'s `count`, so from the third rule on a weapon's rules print with an "Nx " prefix | a weapon with rules AP(1), Blast(3), Rending prints "AP(1), Blast(3), 2x Rending" | each rule printed once, without a count: "AP(1), Blast(3), Rending" | not executed | TextExport.ConstructLabelAsWrittenExample | TextExport.BareRuleNamesCountOne |
| views/components/ReleaseNotes.tsx:311-314 | each of major, minor and patch is compared on its own, and any larger part makes the version greater | "0.9.0" is greater than "1.0.0" (minor 9 > 0) and "1.0.0" greater than "0.9.0" (major 1 > 0) | lexicographic comparison: the first differing part decides | not executed | ReleaseNotes.AsWrittenNotAntisymmetric | ReleaseNotes.VersionOrderAntisymmetric |
