# dc20 character and weapon builders, in Dafny

This project models the rules engine of a DC20 character-sheet crate.

- **Weapon builder.** Its centre is the weapon builder of `src/dc20/item/weapon.rs`. A mutable `WeaponBuilder` collects a weapon type, a style, a damage type, an ordered list of properties and a base range. `build` then yields either a `Weapon` or a structured error. The builder rests on small closed lookup tables:
  - type/style and type/property compatibility;
  - point costs;
  - default ranges and damage types;
  - property dependencies;
  - style formulas, which are built from the `Logical` AND/OR tree of `src/utils/logical.rs`.
- **Legacy weapon builder.** The earlier builder of `src/dc20/item.rs` is modelled on its own. It has no range and no dependency checks, and its melee table is different.
- **Value-style builders.** The by-value builders are modelled too:
  - the origin point-budget validator of `src/dc20/ancestry.rs`;
  - the character builders of `src/dc20/character.rs` and `src/dc20/dc20.rs`;
  - the background builder of `src/dc20/background.rs`.
  - The character builders also carry combat-mastery, defense, save and skill arithmetic.
- **Small parsers.** The attribute-name parser of `src/dc20/attribute.rs` and the range and duration parsers of `src/dc20/spell.rs`.

Layout, one module per source file:

- `utils.dfy` — `Utils`: `Result`, `Option`, `SwapResult::swap`, identifiers
- `logic.dfy` — `Logic`: `src/utils/logical.rs`
- `field_aggregator.dfy` — `FieldAggregation`: `src/utils/field_aggregator.rs`
- `spell.dfy` — `Spell`: `src/dc20/spell.rs`
- `weapon.dfy` — `Weapons`: `src/dc20/item/weapon.rs`
- `weapon_scenarios.dfy` — `WeaponScenarios`: the unit tests of `src/dc20/item/weapon.rs`
- `item.dfy` — `LegacyItem`: `src/dc20/item.rs`
- `item_scenarios.dfy` — `ItemScenarios`: the unit tests of `src/dc20/item.rs`
- `ancestry.dfy` — `Ancestry`: `src/dc20/ancestry.rs`
- `records.dfy` — `Records`: plain records of `class.rs`, `skill.rs`, `language.rs`
- `attribute.dfy` — `Attribute`: `src/dc20/attribute.rs`
- `background.dfy` — `BackgroundBuilder`: `src/dc20/background.rs`
- `character.dfy` — `CharacterStats`, `Character`: `src/dc20/character.rs`
- `dc20.dfy` — `Dc20`: `src/dc20/dc20.rs`

**How each builder is modelled**

- **`weapon.rs` and `item.rs` builders.** Their methods take `&mut self`, so each is a Dafny `class` with the builder's fields.
  - Every setter states the whole new state against `old(State())`.
  - `build` is a method that drives a `FieldAggregator` object. Its postcondition ties the result to a pure function `BuildResult` of the builder state.
  - The weapon rules are proved as lemmas about `BuildResult`.
- **By-value builders** (ancestry, character, dc20, background, attribute). Their operations take and return `self`, so they are datatypes and functions. Each `TryFrom` that runs a `FieldAggregator` is a method, proved equal to a specification function.
- **Identifiers.** Generating a `Uuid` is not modelled. Every operation that stamps an identifier receives it as a parameter.

## Model

| member | source | states |
|---|---|---|
| Utils.OrEmpty | src/dc20/item/weapon.rs:527 | an absent list reads as the empty list and a present one as itself |
| Utils.Swap | src/utils/mod.rs:12-17 | `Ok` becomes `Err` and back, keeping the payload |
| Utils.SwapInvolution | src/utils/mod.rs:12-17 | swapping twice restores the original result |
| Utils.SwapExamples | src/utils/mod.rs:24-31 | `Ok(42)` swaps to `Err(42)` and `Err(42)` to `Ok(42)` |
| Logic.Logical.OrWith | src/utils/logical.rs:11-13 | `a.or(b)` is an `Or` node with `a` left and `b` right, one node larger than both |
| Logic.Logical.AndWith | src/utils/logical.rs:15-17 | `a.and(b)` is an `And` node with `a` left and `b` right, one node larger than both |
| Logic.Render | src/utils/logical.rs:20-27 | a compound formula renders wrapped in parentheses, and the rendering has at least six characters per `Or`/`And` node |
| Logic.RenderRules | src/utils/logical.rs:20-27 | a leaf renders as its item; `Or` renders as `(l or r)` and `And` as `(l and r)` |
| Logic.RenderParenCount | src/utils/logical.rs:20-27 | with parenthesis-free items, the rendering holds exactly one `(` and one `)` per `Or`/`And` node |
| Logic.RenderBalanced | src/utils/logical.rs:20-27 | with parenthesis-free items, every rendering is well parenthesised |
| Logic.CountConcat | src/utils/logical.rs:20-27 | character counts add up over concatenation |
| Logic.CountAbsent | src/utils/logical.rs:20-27 | a character that does not occur is counted zero times |
| Logic.CountPrefix | src/utils/logical.rs:20-27 | a prefix never holds more occurrences than the whole |
| Logic.ParenFreeIsBalanced | src/utils/logical.rs:20-27 | a string without parentheses is balanced |
| Logic.BalancedConcat | src/utils/logical.rs:20-27 | two balanced strings concatenate to a balanced string |
| Logic.BalancedWrap | src/utils/logical.rs:20-27 | wrapping a balanced string in one pair of parentheses keeps it balanced |
| Logic.ConnectiveCount | src/utils/logical.rs:20-27 | `(a op b)` adds one `(` and one `)` to those of `a` and `b` |
| Logic.ConnectiveBalanced | src/utils/logical.rs:20-27 | `(a op b)` is balanced when `a` and `b` are |
| FieldAggregation.Missing | src/utils/field_aggregator.rs:9-13 | no more names than checks |
| FieldAggregation.MissingMeaning | src/utils/field_aggregator.rs:9-13 | nothing is missing iff every field was present; every absent field is named; every name comes from an absent field |
| FieldAggregation.MissingAppend | src/utils/field_aggregator.rs:9-13 | one more check appends the name iff that field is absent |
| FieldAggregation.RunIsMissing | src/utils/field_aggregator.rs:5-13 | after any run of checks the aggregator holds exactly the absent names in call order, and `None` iff all were present |
| FieldAggregation.MissingOfThree | src/utils/field_aggregator.rs:9-13 | the names of three checks are their absent names in order |
| FieldAggregation.MissingOfFour | src/utils/field_aggregator.rs:9-13 | the same for four checks |
| FieldAggregation.MissingConcat | src/utils/field_aggregator.rs:9-13 | the names of two runs of checks are the first run's names followed by the second's |
| FieldAggregation.AllAbsent | src/utils/field_aggregator.rs:9-13 | one failed check per name, in the names' order |
| FieldAggregation.MissingAllAbsent | src/utils/field_aggregator.rs:9-13 | checks of unset fields report every name, in call order |
| FieldAggregation.MissingAfterPresent | src/utils/field_aggregator.rs:9-13 | a set field followed by unset ones reports only the unset names |
| FieldAggregation.MissingAroundPresent | src/utils/field_aggregator.rs:9-13 | two set fields, each followed by unset ones, report the unset names in order and skip the set ones |
| FieldAggregation.FieldAggregator.constructor | src/utils/field_aggregator.rs:5-7 | a new aggregator holds `None` |
| FieldAggregation.FieldAggregator.FieldCheck | src/utils/field_aggregator.rs:9-13 | an absent field's name is appended, creating the list if needed; a present field changes nothing |
| Spell.DefaultRange | src/dc20/spell.rs:9-15 | the default range is the caster |
| Spell.DefaultDuration | src/dc20/spell.rs:28-35 | the default duration is instant |
| Spell.AsU64 | src/dc20/spell.rs:22 | the `as u64` cast keeps non-negative values and wraps negative ones by 2^64 |
| Spell.ParseRange | src/dc20/spell.rs:18-25 | Ok iff the kind is Self, Touch, or Spaces with a value; Self and Touch ignore the value; a non-negative amount is kept and a negative one read as amount + 2^64; every failure is "invalid range" |
| Spell.ParseDuration | src/dc20/spell.rs:38-52 | Ok iff the kind is Instant, or Minutes/Hours/Rounds with a value; for each of the three, a non-negative amount is kept and a negative one read as amount + 2^64; every failure is "invalid duration" |
| Spell.NegativeAmountWraps | src/dc20/spell.rs:18-52 | every negative stored `i64` is accepted by all four amount kinds and read as an amount of at least 2^63 |
| Spell.NegativeAmountExamples | src/dc20/spell.rs:22-48 | -1 reads as 2^64 - 1 spaces and -2 as 2^64 - 2 rounds |
| Spell.ParseRangeRoundTrip | src/dc20/spell.rs:10-25 | every range is recovered from its kind and its `u64` amount stored as an `i64` |
| Spell.ParseDurationRoundTrip | src/dc20/spell.rs:29-52 | every duration is recovered from its kind and its stored amount |
| Weapons.CompatibleWithStyle | src/dc20/item/weapon.rs:16-21 | ranged weapons accept exactly Bow and Crossbow; melee weapons accept every other style |
| Weapons.StyleHasOneType | src/dc20/item/weapon.rs:16-21 | every style fits exactly one weapon type |
| Weapons.StyleName | src/dc20/item/weapon.rs:82-86 | every style displays as a capitalised word of at least three letters |
| Weapons.IsMeleeProperty | src/dc20/item/weapon.rs:138-156 | every property is melee-legal except Ammo, LongRanged and Reload |
| Weapons.IsRangedProperty | src/dc20/item/weapon.rs:159-170 | a property that is not ranged-legal is melee-legal; the ranged ones that are also melee are exactly Heavy, Impact, TwoHanded and Unwieldy |
| Weapons.CompatibleWithProperty | src/dc20/item/weapon.rs:24-29 | legal iff in the type's table (melee 138-156, ranged 159-170); legal for both iff Heavy, Impact, TwoHanded or Unwieldy; Ammo, LongRanged and Reload only for ranged |
| Weapons.EveryPropertyHasAType | src/dc20/item/weapon.rs:138-170 | every property is legal for some weapon type |
| Weapons.DefaultBaseRange | src/dc20/item/weapon.rs:32-37 | melee: one space; ranged: five spaces |
| Weapons.DefaultDamageType | src/dc20/item/weapon.rs:68-79 | slashing for Axe/Sword/Whip, piercing for Bow/Crossbow/Pick/Spear, bludgeoning for Chained/Hammer/Staff; none only for Fist |
| Weapons.Cost | src/dc20/item/weapon.rs:118-135 | between -1 and 2; -1 iff TwoHanded/Unwieldy, 0 iff Ammo/Reload/Capture, 2 iff Heavy |
| Weapons.PropertyDependency | src/dc20/item/weapon.rs:178-184 | a dependency exists iff Heavy (TwoHanded) or Thrown/Returning (Toss); it is never the property itself |
| Weapons.DependencyHasNoDependency | src/dc20/item/weapon.rs:178-184 | dependencies do not chain |
| Weapons.DependencyIsLegal | src/dc20/item/weapon.rs:138-184 | a property legal for a type depends only on a property legal for the same type |
| Weapons.StyleDependency | src/dc20/item/weapon.rs:196-203 | only Capture has a style formula: `Chained or Whip` |
| Weapons.StyleNamesParenFree | src/dc20/item/weapon.rs:82-86 | no style's display name holds a parenthesis |
| Weapons.StyleFormulaRendering | src/dc20/item/weapon.rs:196-203 | Capture's formula renders as `(Chained or Whip)`; every style formula renders balanced |
| Weapons.ErrorFromAggregator | src/dc20/item/weapon.rs:259-275 | an error exactly when the aggregator holds names, and then `MissingField` of those names |
| Weapons.AbsentDependencies | src/dc20/item/weapon.rs:446-454 | every reported dependency is absent and comes from some property; every absent dependency is reported |
| Weapons.AbsentDependencySingle | src/dc20/item/weapon.rs:446-454 | one property contributes its dependency iff it has one that is absent, and nothing otherwise |
| Weapons.AbsentDependenciesConcat | src/dc20/item/weapon.rs:446-454 | the report over a concatenation is the concatenation of the reports, so entries come in property order with repetitions |
| Weapons.MissingDependencyProperties | src/dc20/item/weapon.rs:446-454 | empty without a list; at most one entry per property; each entry is absent from the list and is the dependency of a listed property |
| Weapons.MissingDependenciesEmptyIff | src/dc20/item/weapon.rs:446-454 | no dependency is reported iff the property list is closed under dependencies |
| Weapons.MissingDependencyExamples | src/dc20/item/weapon.rs:446-454 | one entry per dependent property, duplicates kept: Thrown+Returning gives Toss twice |
| Weapons.FoldFormulasMeaning | src/dc20/item/weapon.rs:456-486 | the fold yields a formula iff a property has one, and it is met iff every property's formula is met |
| Weapons.StyleDependencies | src/dc20/item/weapon.rs:456-468 | a formula iff Capture is listed, met iff every property's own formula is met |
| Weapons.MeetsStyle | src/dc20/item/weapon.rs:470-486 | the formula evaluated with exactly the builder's style and the `MultiFaceted` styles true |
| Weapons.StyleDependenciesMeaning | src/dc20/item/weapon.rs:456-486 | a combined formula exists iff Capture is present; it is met iff the style is Chained or Whip or a `MultiFaceted` property grants one |
| Weapons.CompleteIffNothingMissing | src/dc20/item/weapon.rs:489-496 | no field name is collected iff type, style, damage type and range are all set |
| Weapons.BuildResult | src/dc20/item/weapon.rs:488-533 | a weapon carries the given identifier and is well formed; a field error names some field of an incomplete builder; a property error names some dependency of an open list |
| Weapons.BuildSucceedsIff | src/dc20/item/weapon.rs:488-533 | Ok iff fields complete, dependencies closed, style formulas met and type/style compatible; the weapon copies the fields and is well formed |
| Weapons.MissingRequiredChecks | src/dc20/item/weapon.rs:489-494 | the collected names are the unset fields in the order weapon_type, style, damage_type, base_range |
| Weapons.BuildReportsMissingFields | src/dc20/item/weapon.rs:489-496 | step 1: any unset field yields `MissingField` with every unset name |
| Weapons.BuildReportsMissingDependencies | src/dc20/item/weapon.rs:498-501 | step 2: then an open dependency yields `MissingProperty` with every absent dependency |
| Weapons.BuildReportsStyleFormula | src/dc20/item/weapon.rs:510-516 | step 3: then an unmet formula yields `MissingStyleDependencies` with the combined formula |
| Weapons.BuildReportsIncompatibleStyle | src/dc20/item/weapon.rs:518-532 | step 4: then a type/style mismatch yields `IncompatibleStyle(style, type)` |
| Weapons.SeedIfUnset | src/dc20/item/weapon.rs:311-313 | a set field is kept; an unset one takes the default |
| Weapons.AdditionError | src/dc20/item/weapon.rs:387-408 | a duplicate is refused before an illegal property; accepted iff new and legal for the set type |
| Weapons.Position | src/dc20/item/weapon.rs:436-439 | the first index holding the property, or none iff it is absent |
| Weapons.AppendOneMore | src/dc20/item/weapon.rs:414-428 | appending one more property extends the appended prefix by one |
| Weapons.WeaponBuilder.constructor | src/dc20/item/weapon.rs:291-296 | every field unset, point budget 2 |
| Weapons.WeaponBuilder.NewMelee | src/dc20/item/weapon.rs:321-325 | melee with range one space, nothing else set |
| Weapons.WeaponBuilder.NewRanged | src/dc20/item/weapon.rs:328-337 | ranged with range five spaces and properties Ammo, TwoHanded, Unwieldy |
| Weapons.WeaponBuilder.SetWeaponType | src/dc20/item/weapon.rs:298-308 | refused with `IncompatibleStyle`, state unchanged, when the set style does not fit; otherwise as the unchecked setter |
| Weapons.WeaponBuilder.SetWeaponTypeUnchecked | src/dc20/item/weapon.rs:310-318 | sets the type and seeds its default range only if no range is set |
| Weapons.WeaponBuilder.SetBaseRange | src/dc20/item/weapon.rs:339-343 | always accepted; overwrites the range only |
| Weapons.WeaponBuilder.SetBaseRangeUnchecked | src/dc20/item/weapon.rs:345-349 | overwrites the range only |
| Weapons.WeaponBuilder.SetStyle | src/dc20/item/weapon.rs:351-361 | refused with `IncompatibleStyle(style, type)`, state unchanged, when the set type does not fit; otherwise as the unchecked setter |
| Weapons.WeaponBuilder.SetStyleUnchecked | src/dc20/item/weapon.rs:363-373 | sets the style and seeds its default damage type only if none is set |
| Weapons.WeaponBuilder.SetDamageType | src/dc20/item/weapon.rs:375-379 | always accepted; overwrites the damage type only |
| Weapons.WeaponBuilder.SetDamageTypeUnchecked | src/dc20/item/weapon.rs:381-385 | overwrites the damage type only |
| Weapons.WeaponBuilder.AddProperty | src/dc20/item/weapon.rs:387-408 | refused with the duplicate or legality error and no change; otherwise appended |
| Weapons.WeaponBuilder.AddPropertyUnchecked | src/dc20/item/weapon.rs:410-412 | appends, creating the list if needed |
| Weapons.WeaponBuilder.AddProperties | src/dc20/item/weapon.rs:414-420 | adds in order; stops at the first refusal with its error, keeping the earlier additions |
| Weapons.WeaponBuilder.AddPropertiesUnchecked | src/dc20/item/weapon.rs:422-428 | appends every property in order |
| Weapons.WeaponBuilder.RemoveProperty | src/dc20/item/weapon.rs:430-444 | `MissingField(["properties"])` with no list; `MissingProperty([p])` when absent; otherwise removes the first occurrence only |
| Weapons.WeaponBuilder.Build | src/dc20/item/weapon.rs:488-533 | the result equals `BuildResult` of the current state; the builder is not changed |
| WeaponScenarios.IncompatibleStyleCaughtAtBuild | src/dc20/item/weapon.rs:566-583 | a bow style forced onto a melee weapon is caught by `build` |
| WeaponScenarios.DuplicatePropertyRefused | src/dc20/item/weapon.rs:586-595 | the second addition of a property is refused with `DuplicateProperty` |
| WeaponScenarios.RemovalRefusals | src/dc20/item/weapon.rs:597-617 | removal without a list, and of an absent property, is refused |
| WeaponScenarios.DamageTypeSeeding | src/dc20/item/weapon.rs:632-669 | a style seeds its damage type unless one is set; Fist seeds none |
| WeaponScenarios.RequiredFieldsEnforced | src/dc20/item/weapon.rs:677-716 | four, then two names are reported, then the build succeeds |
| WeaponScenarios.PropertyLegality | src/dc20/item/weapon.rs:745-789 | LongRanged is refused for melee, Reach for ranged; a legal property is appended |
| WeaponScenarios.PropertyDependenciesEnforced | src/dc20/item/weapon.rs:791-831 | Heavy alone is refused with `MissingProperty([TwoHanded])`; adding TwoHanded builds |
| WeaponScenarios.MissingDependenciesListed | src/dc20/item/weapon.rs:791-831 | Heavy and Thrown report TwoHanded and Toss, in order |
| WeaponScenarios.CaptureStyleEnforced | src/dc20/item/weapon.rs:833-880 | Capture on a hammer reports `Chained or Whip`; on a chained weapon it builds |
| WeaponScenarios.MultiFacetedMeetsStyle | src/dc20/item/weapon.rs:882-916 | `MultiFaceted(Whip)` meets Capture's formula for a sword |
| WeaponScenarios.HeavyAloneReported | src/dc20/item/weapon.rs:498-501 | any complete builder whose only property is Heavy is refused with `MissingProperty([TwoHanded])` |
| WeaponScenarios.HeavyThrownReported | src/dc20/item/weapon.rs:446-454 | any complete builder with Heavy and Thrown reports TwoHanded then Toss |
| WeaponScenarios.HeavyTwoHandedBuilds | src/dc20/item/weapon.rs:488-533 | any complete builder with Heavy and TwoHanded whose type and style agree builds, keeping both properties |
| WeaponScenarios.MultiFacetedWhipBuilds | src/dc20/item/weapon.rs:470-486 | Capture with `MultiFaceted(Whip)` builds for any agreeing type and style |
| WeaponScenarios.CaptureAlone | src/dc20/item/weapon.rs:510-532 | a complete melee builder with Capture alone builds iff the style is Chained or Whip |
| LegacyItem.Cost | src/dc20/item.rs:99-119 | the same cost bands as the newer table |
| LegacyItem.CostAgrees | src/dc20/item.rs:99-119 | both files price every property the same |
| LegacyItem.IsMeleeProperty | src/dc20/item.rs:121-136 | the melee set of `weapon.rs` without Returning and Capture |
| LegacyItem.CompatibleWithProperty | src/dc20/item.rs:28-33 | ranged legality as in the newer table; melee legality as there minus Returning and Capture |
| LegacyItem.LegalityDiffers | src/dc20/item.rs:121-150 | the two files disagree exactly on Returning and Capture for melee weapons |
| LegacyItem.ErrorFromAggregator | src/dc20/item.rs:192-208 | an error exactly when names were collected, and then `MissingField` of them |
| LegacyItem.MissingRequiredChecks | src/dc20/item.rs:366-372 | the collected names are the unset fields among weapon_type, style, damage_type in order; none iff all set |
| LegacyItem.BuildResult | src/dc20/item.rs:365-387 | only field errors and `IncompatibleStyle` occur; a field error iff a field is unset; a weapon carries the identifier and a compatible type and style |
| LegacyItem.BuildOutcomes | src/dc20/item.rs:365-387 | unset fields first, then `IncompatibleStyle`; Ok iff complete and compatible, copying the fields |
| LegacyItem.AdditionError | src/dc20/item.rs:305-326 | duplicate before legality, with this file's legality |
| LegacyItem.AppendOneMore | src/dc20/item.rs:334-343 | appending one more property extends the appended prefix by one |
| LegacyItem.WeaponBuilder.constructor | src/dc20/item.rs:220-225 | every field unset, point budget 2 |
| LegacyItem.WeaponBuilder.NewMelee | src/dc20/item.rs:245-253 | melee and nothing else; no range is seeded |
| LegacyItem.WeaponBuilder.NewRanged | src/dc20/item.rs:255-271 | ranged with Ammo, TwoHanded, Unwieldy; neither unwrap can fail |
| LegacyItem.WeaponBuilder.SetWeaponType | src/dc20/item.rs:227-243 | refused with `IncompatibleStyle` and no change when the style does not fit; otherwise sets the type only |
| LegacyItem.WeaponBuilder.SetStyle | src/dc20/item.rs:273-293 | refused on an incompatible type; otherwise seeds the damage type when none is set (none for Fist) and sets the style |
| LegacyItem.WeaponBuilder.SetDamageType | src/dc20/item.rs:295-303 | overwrites the damage type only |
| LegacyItem.WeaponBuilder.AddProperty | src/dc20/item.rs:305-332 | refused with the duplicate or legality error and no change; otherwise appended |
| LegacyItem.WeaponBuilder.WithProperties | src/dc20/item.rs:334-343 | adds in order and stops at the first refusal |
| LegacyItem.WeaponBuilder.RemoveProperty | src/dc20/item.rs:345-363 | `MissingField(["properties"])` with no list; `MissingProperty(p)` (single) when absent; otherwise removes the first occurrence |
| LegacyItem.WeaponBuilder.Build | src/dc20/item.rs:365-387 | the result equals `BuildResult` of the current state |
| ItemScenarios.IncompatibleStyleCaughtAtBuild | src/dc20/item.rs:411-428 | a bow forced onto a melee weapon is caught by `build` |
| ItemScenarios.Refusals | src/dc20/item.rs:430-464 | duplicate, removal without a list and removal of an absent property are refused |
| ItemScenarios.RequiredFieldsEnforced | src/dc20/item.rs:513-550 | three, then two names are reported, then a melee sword builds |
| ItemScenarios.DamageTypeSeeding | src/dc20/item.rs:481-511 | Fist seeds no damage type; an explicit damage type is kept |
| ItemScenarios.PropertyLegality | src/dc20/item.rs:570-609 | LongRanged is refused for melee, Reach for ranged; Heavy is appended for a new melee weapon and for a ranged one |
| ItemScenarios.CaptureRefused | src/dc20/item.rs:121-136 | Capture is refused for a melee weapon here |
| Ancestry.TraitPoints | src/dc20/ancestry.rs:280-282 | no traits cost 0; with no negative cost the sum is non-negative |
| Ancestry.ZeroPointTraits | src/dc20/ancestry.rs:284-286 | exactly the zero-cost traits, each kept |
| Ancestry.TraitPointsConcat | src/dc20/ancestry.rs:280-286 | points and zero-cost counts add up over concatenation |
| Ancestry.NewOrigin | src/dc20/ancestry.rs:33-38 | five points, no ancestries |
| Ancestry.WithAncestry | src/dc20/ancestry.rs:40-54 | refused with `DuplicateAncestry(name)` iff already present; otherwise appended |
| Ancestry.TotalsOverAllTraits | src/dc20/ancestry.rs:56-75 | the per-ancestry totals equal the totals over all traits |
| Ancestry.TotalTraitPoints | src/dc20/ancestry.rs:56-60 | 0 without a list; otherwise the sum of every trait cost of every ancestry |
| Ancestry.ZeroPointTraitCount | src/dc20/ancestry.rs:70-75 | 0 without a list; otherwise the number of free traits across all ancestries |
| Ancestry.WithAncestryTotals | src/dc20/ancestry.rs:40-75 | adding an ancestry adds its points and its zero-cost traits |
| Ancestry.BuildOrigin | src/dc20/ancestry.rs:125-155 | each error arm iff its cause, in check order: `AncestryMissing` iff no list; `PointsExceeded` iff a list overspends; `PointsRemaining` iff it underspends; `ZeroPointTraitMissing` iff the budget is met with no free trait; `MultipleZeroPointTraits` iff it is met with several; a built origin spends exactly the budget with exactly one free trait |
| Ancestry.BuildOriginSucceedsIff | src/dc20/ancestry.rs:125-155 | Ok iff a list exists, points equal the budget and exactly one trait is free; 1, 2 and 3+ ancestries give PureBred, HybridBred, CustomOrigin |
| Ancestry.EmptyListRefusedEarlier | src/dc20/ancestry.rs:125-147 | an empty list is refused by the points or zero-trait checks, never by the count arm |
| Ancestry.AddTrait | src/dc20/ancestry.rs:262-278 | always accepted; appends |
| Ancestry.AddTraitTotals | src/dc20/ancestry.rs:271-286 | appending adds its cost, and counts it when free |
| Ancestry.FromEntry | src/dc20/ancestry.rs:237-244 | nothing selected |
| Ancestry.AddAncestryTrait | src/dc20/ancestry.rs:201-230 | `TraitNotAvailable` before `DuplicateTrait`; accepted iff available and new, then appended |
| Ancestry.AddAncestryTraitKeepsValid | src/dc20/ancestry.rs:201-244 | the selection stays non-empty, drawn from the entry and duplicate-free |
| Ancestry.BuildInstance | src/dc20/ancestry.rs:308-322 | `MissingTraits` iff nothing was selected; otherwise the entry name and the selection |
| Ancestry.BuiltInstanceIsValid | src/dc20/ancestry.rs:201-322 | a built instance has at least one trait, all from the entry, none twice |
| Ancestry.DuplicateAncestryExample | src/dc20/ancestry.rs:345-364 | adding the same instance twice is refused |
| Ancestry.OriginPureBredExample | src/dc20/ancestry.rs:429-452 | a fresh builder has no ancestry; adding the 5+0 point ancestry builds `PureBred` |
| Ancestry.OriginHybridExample | src/dc20/ancestry.rs:454-466 | adding the 1-point ancestry with a budget of 6 builds `HybridBred` |
| Ancestry.OriginCustomExample | src/dc20/ancestry.rs:468-482 | adding the 2-point ancestry with a budget of 8 builds `CustomOrigin` |
| Attribute.Name | src/dc20/attribute.rs:61-65 | `from_str` turns every displayed name back into its attribute |
| Attribute.FromStr | src/dc20/attribute.rs:78-91 | Ok iff one of the five names; every other string is refused |
| Attribute.NameRoundTrip | src/dc20/attribute.rs:61-91 | parsing a displayed name gives it back, and every accepted string is a displayed name |
| Attribute.PrecisionDefense | src/dc20/attribute.rs:124-132 | score 8 + mastery + agility + intelligence, reduction 0 |
| Attribute.AreaDefense | src/dc20/attribute.rs:135-143 | score 8 + mastery + might + charisma, reduction 0 |
| Attribute.DefensesDependOnTheirAttributes | src/dc20/attribute.rs:124-143 | each defense reads only its two attributes and rises by one per point of mastery |
| Attribute.NewAttributeLevel | src/dc20/attribute.rs:154-156 | score 0, not proficient, no skills |
| Attribute.WithBaseScore | src/dc20/attribute.rs:158-162 | sets the score only |
| Attribute.WithSaveProficiency | src/dc20/attribute.rs:164-168 | sets the flag only |
| Attribute.WithSkill | src/dc20/attribute.rs:170-174 | appends the skill only |
| Attribute.CalcSave | src/dc20/attribute.rs:177-185 | the score plus combat mastery when proficient, the score otherwise |
| Attribute.SaveProficiencyBonus | src/dc20/attribute.rs:177-185 | proficiency adds exactly the combat mastery; skills do not change the save |
| BackgroundBuilder.New | src/dc20/background.rs:20-26 | the name set, the three lists unset |
| BackgroundBuilder.WithName | src/dc20/background.rs:28-34 | overwrites the name only |
| BackgroundBuilder.AddSkill | src/dc20/background.rs:36-40 | appends, creating the list; nothing else changes |
| BackgroundBuilder.AddTrade | src/dc20/background.rs:42-46 | appends, creating the list; nothing else changes |
| BackgroundBuilder.AddLanguage | src/dc20/background.rs:48-52 | appends, creating the list; nothing else changes |
| BackgroundBuilder.ErrorFromAggregator | src/dc20/background.rs:76-82 | an error exactly when names were collected |
| BackgroundBuilder.MissingRequiredChecks | src/dc20/background.rs:89-97 | the collected names are the unset ones among Name, Skills, Trades, Languages in order; none iff all set |
| BackgroundBuilder.BuildBackground | src/dc20/background.rs:89-107 | Ok iff the four fields are set, keeping the identifier; an error names at least one field |
| BackgroundBuilder.BuildBackgroundOutcomes | src/dc20/background.rs:89-107 | fails iff a field is unset, naming them; otherwise keeps the uuid and every list |
| BackgroundBuilder.Build | src/dc20/background.rs:89-107 | the result equals `BuildBackground` |
| BackgroundBuilder.SoldierExample | src/dc20/background.rs:123-160 | three, two, one names reported, then the background builds |
| CharacterStats.DefaultLevel | src/dc20/character.rs:239-243 | level 1 |
| CharacterStats.CombatMastery | src/dc20/character.rs:234-236 | half the level rounded up |
| CharacterStats.CombatMasteryGrowth | src/dc20/character.rs:234-236 | monotone in the level; one more every two levels |
| CharacterStats.CombatMasteryTable | src/dc20/character.rs:395-416 | the twenty values of the crate's test: 1, 1, 2, 2, … 10, 10 for levels 1 to 20 |
| CharacterStats.Heavy | src/dc20/character.rs:254-256 | score + 5 |
| CharacterStats.Brutal | src/dc20/character.rs:259-261 | score + 10 |
| CharacterStats.ThresholdsOrdered | src/dc20/character.rs:253-261 | score < heavy < brutal, five apart |
| Character.ErrorFromAggregator | src/dc20/character.rs:189-195 | an error exactly when names were collected |
| Character.NewBuilder | src/dc20/character.rs:24-27 | nothing set, level 1 |
| Character.PlayerName | src/dc20/character.rs:29-37 | the empty name is ignored; any other overwrites |
| Character.CharacterName | src/dc20/character.rs:40-48 | the empty name is ignored; any other overwrites |
| Character.WithClass | src/dc20/character.rs:51-55 | sets the class and changes nothing else; only the "Class" check turns present |
| Character.WithOrigin | src/dc20/character.rs:58-62 | sets the ancestry and changes nothing else; only the "Ancestry" check turns present |
| Character.WithBackground | src/dc20/character.rs:65-69 | sets the background and changes nothing else; only the "Background" check turns present |
| Character.WithAttributes | src/dc20/character.rs:72-76 | sets the attributes and changes nothing else; only the "Attributes" check turns present |
| Character.WithPhysicalDefense | src/dc20/character.rs:79-83 | sets the physical defense and changes nothing else; only the "Physical Defense" check turns present |
| Character.WithMysticalDefense | src/dc20/character.rs:86-90 | sets the mystical defense and changes nothing else; only the "Mystical Defense" check turns present |
| Character.CompleteIffNothingMissing | src/dc20/character.rs:201-212 | no name is collected iff all eight fields are set |
| Character.BuildCharacter | src/dc20/character.rs:200-226 | Ok iff all eight fields are set, carrying the identifier and the level; an error names one to eight fields |
| Character.BuildCharacterOutcomes | src/dc20/character.rs:200-226 | Ok iff all eight set, copying every field; otherwise exactly the unset names |
| Character.Build | src/dc20/character.rs:200-226 | the result equals `BuildCharacter` |
| Character.NothingSetMissesAll | src/dc20/character.rs:200-226 | a builder with no required field set reports all eight names in check order |
| Character.OnlyPlayerNameSet | src/dc20/character.rs:200-226 | with only the player name set, every other name is reported, in order |
| Character.PlayerNameAndAncestrySet | src/dc20/character.rs:200-226 | with the player name and the ancestry set, the rest are reported in order, "Ancestry" left out |
| Character.FreshBuilderMissesAll | src/dc20/character.rs:274-287 | a fresh builder misses all eight names in order |
| Character.PlayerNameRemovesFirst | src/dc20/character.rs:289-301 | any non-empty player name removes the first name |
| Character.OriginRemovesAncestry | src/dc20/character.rs:303-322 | an origin removes "Ancestry" |
| Dc20.Bonus | src/dc20/dc20.rs:361-367 | the discriminants 2, 4, 6, 8, 10 |
| Dc20.BonusFollowsRank | src/dc20/dc20.rs:360-367 | each step of the derived order adds 2; distinct masteries have distinct bonuses |
| Dc20.NewSkill | src/dc20/dc20.rs:405-411 | no mastery |
| Dc20.SetMastery | src/dc20/dc20.rs:413-415 | sets the mastery, keeping identity and name |
| Dc20.NewLanguage | src/dc20/dc20.rs:432-438 | limited fluency |
| Dc20.SetFluency | src/dc20/dc20.rs:440-442 | sets the fluency, keeping identity and name |
| Dc20.CalcSave | src/dc20/dc20.rs:379-383 | the score plus the level's combat mastery |
| Dc20.CalcSaveIgnoresProficiency | src/dc20/dc20.rs:379-383 | the save ignores proficiency and skills, and grows with the level |
| Dc20.CalcScore | src/dc20/dc20.rs:395-401 | the stat's score, plus the mastery's bonus when set |
| Dc20.CalcScoreBounds | src/dc20/dc20.rs:395-401 | a mastery raises the score by 2 to 10; a higher mastery raises it more |
| Dc20.ErrorFromAggregator | src/dc20/dc20.rs:230-236 | an error exactly when names were collected |
| Dc20.NewBuilder | src/dc20/dc20.rs:24-26 | nothing set, no trades, level 1 |
| Dc20.PlayerName | src/dc20/dc20.rs:29-37 | the empty name is ignored; any other overwrites |
| Dc20.CharacterName | src/dc20/dc20.rs:40-48 | the empty name is ignored; any other overwrites |
| Dc20.WithClass | src/dc20/dc20.rs:51-55 | sets the class and changes nothing else; only the "Class" check turns present |
| Dc20.WithAncestry | src/dc20/dc20.rs:58-62 | sets the ancestry and changes nothing else; only the "Ancestry" check turns present |
| Dc20.WithBackground | src/dc20/dc20.rs:65-69 | sets the background and changes nothing else; only the "Background" check turns present |
| Dc20.WithPhysicalDefense | src/dc20/dc20.rs:93-97 | sets the physical defense and changes nothing else; only the "Physical Defense" check turns present |
| Dc20.WithMysticalDefense | src/dc20/dc20.rs:100-104 | sets the mystical defense and changes nothing else; only the "Mystical Defense" check turns present |
| Dc20.AddStat | src/dc20/dc20.rs:72-76 | appends, creating the list; nothing else changes |
| Dc20.AddTrade | src/dc20/dc20.rs:79-83 | appends; nothing else changes |
| Dc20.AddLanguage | src/dc20/dc20.rs:86-90 | appends, creating the list; nothing else changes |
| Dc20.AddStatsInOrder | src/dc20/dc20.rs:72-76 | a chain of additions keeps every stat in call order |
| Dc20.AddLanguagesInOrder | src/dc20/dc20.rs:86-90 | a chain of additions keeps every language in call order |
| Dc20.CompleteIffNothingMissing | src/dc20/dc20.rs:244-254 | no name is collected iff all nine fields are set |
| Dc20.BuildCharacter | src/dc20/dc20.rs:241-272 | Ok iff all nine fields are set, carrying the identifier, the level and the trades; an error names one to nine fields |
| Dc20.BuildCharacterOutcomes | src/dc20/dc20.rs:241-272 | Ok iff all nine set, copying every field and the trades; otherwise exactly the unset names; trades never matter |
| Dc20.Build | src/dc20/dc20.rs:241-272 | the result equals `BuildCharacter` |
| Dc20.NothingSetMissesAll | src/dc20/dc20.rs:241-272 | a builder with no required field set reports all nine names in check order |
| Dc20.OnlyPlayerNameSet | src/dc20/dc20.rs:241-272 | with only the player name set, every other name is reported, in order |
| Dc20.PlayerNameAndAncestrySet | src/dc20/dc20.rs:241-272 | with the player name and the ancestry set, the rest are reported in order, "Ancestry" left out |
| Dc20.FreshBuilderMissesAll | src/dc20/dc20.rs:470-484 | a fresh builder misses all nine names in order |
| Dc20.PlayerNameRemovesFirst | src/dc20/dc20.rs:486-499 | any non-empty player name removes the first name |
| Dc20.AncestryRemovesAncestry | src/dc20/dc20.rs:501-516 | an ancestry removes "Ancestry" |
| Dc20.FullCharacterBuilt | src/dc20/dc20.rs:518-585 | the full test character builds with level 1, no trades, one stat, one language |

## Left out

- Database loading and saving are not modelled: `Attribute::load`/`save`, `Skill::load`/`save`, `Spell::load` and `SpellList::load` go through an SQL pool.
- `main.rs`, `player.rs`, `tests/character.rs`, the module wiring files, `trade.rs`, `mastery.rs`, `maneuver.rs` and `technique.rs` are not part of this model.
- The `Display` implementations of the error types are not modelled; only the `Logical` rendering is.
- Generating identifiers (`Uuid::new_v4`) is not modelled; it is a parameter.
- `max_points` is stored by both weapon builders but never enforced by the source. The model stores it and checks nothing.
- `Weapon::get_range` is a stub returning the caster range, and `WeaponProperty::is_compatible_with_style` is never called by `build`. Neither is modelled.
- LegacyItem.WeaponBuilder: the consuming `with_*`/`without_property` wrappers of `item.rs` are modelled through the `&mut self` methods they call. When one of them fails, the source drops the builder, while the model keeps the partly updated object.
- Ancestry.AddTrait, Dc20.SetMastery and Dc20.SetFluency take `&mut self` in the source. They are modelled as functions that return the updated value, so aliasing is not captured.
- Integer widths: `isize`/`usize` overflow and the panics of `checked_add_unsigned(..).unwrap()` are not modelled; integers are unbounded.
- Attribute.PrecisionDefense and Attribute.AreaDefense require non-negative attributes. The source casts a negative `i64` to `usize`, which wraps; the model does not follow that.
- `ClassEntry`, the type `character.rs` stores, is not declared in the files modelled here. The `Class` record of `class.rs` stands in for it.
- `precision_defense` and `area_defense` build that `Defense` with a struct literal that leaves out its `name` field (src/dc20/attribute.rs:128-131 against src/dc20/character.rs:246-250). The model gives their result a record of score and reduction only, `Attribute.Defense`.
- `attribute.rs` imports `Level` and `Defense` from `crate::dc20` (src/dc20/attribute.rs:5), which re-exports those of `character.rs` (src/dc20/mod.rs:11). The model uses the `Level` of `character.rs`, as the source does.
- `dc20.rs` declares `Level` and `Defense` identically to `character.rs`, so the model shares one declaration.
- `dc20.rs` keeps a private copy of the field aggregator that behaves as the shared one, and both are modelled by `FieldAggregation`.
- `Class::new`, `Subclass::new`, `Ancestry::new`, `Background::new` and `Class::add_subclass` of `dc20.rs` and `class.rs` build plain records. They have no rule to state.
- `LanguageFluency::common`/`limited_in`/`fluent_in` are plain record constructors of `language.rs`, also with no rule to state, and no modelled file calls them.
- `Stat::calc_save` in `dc20.rs` adds the combat mastery whether or not the stat has save proficiency, while `AttributeLevel::calc_save` adds it only with proficiency. Both are modelled as written.
