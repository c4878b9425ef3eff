/** The behaviour the crate's weapon tests pin down (`src/dc20/item/weapon.rs`,
    tests module), written as client code of `WeaponBuilder`: each method
    drives a fresh builder and its contract states the outcome. */
module WeaponScenarios {
  import opened Utils
  import opened Logic
  import opened Spell
  import opened Weapons

  /** A bow style forced onto a melee weapon by field access is caught by
      `build`. */
  method IncompatibleStyleCaughtAtBuild(id: Uuid) returns (styled: Result<(), WeaponBuildError>, built: Result<Weapon, WeaponBuildError>)
    ensures styled == Ok(())
    ensures built == Err(IncompatibleStyle(Bow, Melee))
  {
    var b := new WeaponBuilder();
    styled := b.SetStyle(Bow);
    b.weaponType := Some(Melee);
    b.baseRange := Some(Spaces(1));
    built := b.Build(id);
  }

  /** The same property cannot be added twice. */
  method DuplicatePropertyRefused() returns (first: Result<(), WeaponBuildError>, second: Result<(), WeaponBuildError>)
    ensures first == Ok(())
    ensures second == Err(DuplicateProperty(Ammo))
  {
    var b := new WeaponBuilder();
    first := b.AddProperty(Ammo);
    second := b.AddProperty(Ammo);
  }

  /** Removing from a list never created, and removing an absent property. */
  method RemovalRefusals() returns (fromNone: Result<(), WeaponBuildError>, absent: Result<(), WeaponBuildError>)
    ensures fromNone == Err(MissingField(["properties"]))
    ensures absent == Err(MissingProperty([Ammo]))
  {
    var b := new WeaponBuilder();
    fromNone := b.RemoveProperty(Ammo);
    var m := new WeaponBuilder.NewMelee();
    var added := m.AddProperty(Impact);
    absent := m.RemoveProperty(Ammo);
  }

  /** A style seeds its default damage type, unless one is already set, and
      Fist seeds none. */
  method DamageTypeSeeding() returns (sword: Option<DamageType>, hammer: Option<DamageType>, pick: Option<DamageType>,
                                      kept: Option<DamageType>, fist: Option<DamageType>)
    ensures sword == Some(Slashing) && hammer == Some(Bludgeoning) && pick == Some(Piercing)
    ensures kept == Some(Bludgeoning)
    ensures fist == None
  {
    var b := new WeaponBuilder.NewMelee();
    var r := b.SetStyle(Sword);
    sword := b.damageType;
    b := new WeaponBuilder.NewMelee();
    r := b.SetStyle(Hammer);
    hammer := b.damageType;
    b := new WeaponBuilder.NewMelee();
    r := b.SetStyle(Pick);
    pick := b.damageType;
    b := new WeaponBuilder.NewMelee();
    r := b.SetDamageType(Bludgeoning);
    r := b.SetStyle(Sword);
    kept := b.damageType;
    b := new WeaponBuilder.NewMelee();
    r := b.SetStyle(Fist);
    fist := b.damageType;
  }

  /** All four required fields are reported on a fresh builder, two once the
      type is set (it seeds the range), and none once a sword style seeds the
      damage type. */
  method RequiredFieldsEnforced(id: Uuid) returns (empty: Result<Weapon, WeaponBuildError>, typed: Result<Weapon, WeaponBuildError>,
                                                   done: Result<Weapon, WeaponBuildError>)
    ensures empty == Err(MissingField(["weapon_type", "style", "damage_type", "base_range"]))
    ensures typed == Err(MissingField(["style", "damage_type"]))
    ensures done == Ok(Weapon(id, Melee, Sword, Slashing, [], Spaces(1)))
  {
    var b := new WeaponBuilder();
    empty := b.Build(id);
    BuildReportsMissingFields(b.State(), id);
    assert UnsetFieldNames(b.State()) == ["weapon_type", "style", "damage_type", "base_range"];
    var r := b.SetWeaponType(Melee);
    typed := b.Build(id);
    BuildReportsMissingFields(b.State(), id);
    assert UnsetFieldNames(b.State()) == ["style", "damage_type"];
    r := b.SetStyle(Sword);
    done := b.Build(id);
    BuildSucceedsIff(b.State(), id);
  }

  /** Property legality follows the weapon type; a legal property is
      appended and nothing else changes. */
  method PropertyLegality() returns (longRanged: Result<(), WeaponBuildError>, reach: Result<(), WeaponBuildError>,
                                     meleeHeavy: BuilderState, rangedHeavy: BuilderState)
    ensures longRanged == Err(IncompatibleProperty(LongRanged, Melee))
    ensures reach == Err(IncompatibleProperty(Reach, Ranged))
    ensures meleeHeavy == BuilderState(Some(Melee), None, None, Some([Heavy]), Some(Spaces(1)), 2)
    ensures rangedHeavy == BuilderState(Some(Ranged), None, None, Some([Heavy]), Some(Spaces(5)), 2)
  {
    var m := new WeaponBuilder.NewMelee();
    longRanged := m.AddProperty(LongRanged);
    var rb := new WeaponBuilder.NewRanged();
    reach := rb.AddProperty(Reach);
    m := new WeaponBuilder.NewMelee();
    var r := m.AddProperty(Heavy);
    assert [] + [Heavy] == [Heavy];
    meleeHeavy := m.State();
    rb := new WeaponBuilder();
    r := rb.SetWeaponType(Ranged);
    r := rb.AddProperty(Heavy);
    rangedHeavy := rb.State();
  }

  /** Heavy needs TwoHanded: alone it is reported as a missing dependency,
      and adding TwoHanded lets the build through. */
  method PropertyDependenciesEnforced(id: Uuid) returns (heavyOnly: Result<Weapon, WeaponBuildError>,
                                                         heavyTwoHanded: Result<Weapon, WeaponBuildError>)
    ensures heavyOnly == Err(MissingProperty([TwoHanded]))
    ensures heavyTwoHanded == Ok(Weapon(id, Melee, Axe, Slashing, [Heavy, TwoHanded], Spaces(1)))
  {
    var b := new WeaponBuilder.NewMelee();
    var r := b.AddProperty(Heavy);
    r := b.SetStyle(Axe);
    assert [] + [Heavy] == [Heavy];
    assert b.State() == BuilderState(Some(Melee), Some(Axe), Some(Slashing), Some([Heavy]), Some(Spaces(1)), 2);
    heavyOnly := b.Build(id);
    HeavyAloneReported(b.State(), id);
    r := b.AddProperty(TwoHanded);
    assert [Heavy] + [TwoHanded] == [Heavy, TwoHanded];
    assert b.State().properties == Some([Heavy, TwoHanded]);
    heavyTwoHanded := b.Build(id);
    HeavyTwoHandedBuilds(b.State(), id);
  }

  /** Each missing dependency is reported, in property order. */
  method MissingDependenciesListed(id: Uuid) returns (heavyThrown: Result<Weapon, WeaponBuildError>)
    ensures heavyThrown == Err(MissingProperty([TwoHanded, Toss]))
  {
    var b := new WeaponBuilder.NewMelee();
    var r := b.AddProperties([Heavy, Thrown]);
    r := b.SetStyle(Axe);
    assert [] + [Heavy, Thrown] == [Heavy, Thrown];
    assert b.State().properties == Some([Heavy, Thrown]);
    heavyThrown := b.Build(id);
    HeavyThrownReported(b.State(), id);
  }

  /** Capture needs a Chained or Whip style, reported as the formula
      `Chained or Whip`. */
  method CaptureStyleEnforced(id: Uuid) returns (hammer: Result<Weapon, WeaponBuildError>, chained: Result<Weapon, WeaponBuildError>,
                                                 whip: Result<Weapon, WeaponBuildError>)
    ensures hammer == Err(MissingStyleDependencies(Unit(Chained).OrWith(Unit(Whip))))
    ensures chained == Ok(Weapon(id, Melee, Chained, Bludgeoning, [Capture], Spaces(1)))
    ensures whip == Ok(Weapon(id, Melee, Whip, Bludgeoning, [Capture], Spaces(1)))
  {
    var b := new WeaponBuilder.NewMelee();
    var r := b.AddProperty(Capture);
    assert [] + [Capture] == [Capture];
    r := b.SetStyle(Hammer);
    assert b.State() == BuilderState(Some(Melee), Some(Hammer), Some(Bludgeoning), Some([Capture]), Some(Spaces(1)), 2);
    hammer := b.Build(id);
    CaptureAlone(b.State(), id);
    r := b.SetStyle(Chained);
    assert b.State() == BuilderState(Some(Melee), Some(Chained), Some(Bludgeoning), Some([Capture]), Some(Spaces(1)), 2);
    chained := b.Build(id);
    CaptureAlone(b.State(), id);
    r := b.SetStyle(Whip);
    assert b.State() == BuilderState(Some(Melee), Some(Whip), Some(Bludgeoning), Some([Capture]), Some(Spaces(1)), 2);
    whip := b.Build(id);
    CaptureAlone(b.State(), id);
  }

  /** A `MultiFaceted(Whip)` property meets Capture's requirement for a
      sword. */
  method MultiFacetedMeetsStyle(id: Uuid) returns (before: Result<Weapon, WeaponBuildError>, after: Result<Weapon, WeaponBuildError>)
    ensures before == Err(MissingStyleDependencies(Or(Unit(Chained), Unit(Whip))))
    ensures after == Ok(Weapon(id, Melee, Sword, Slashing, [Capture, MultiFaceted(Whip)], Spaces(1)))
  {
    var b := new WeaponBuilder.NewMelee();
    var r := b.SetStyle(Sword);
    r := b.AddProperties([Capture]);
    assert [] + [Capture] == [Capture];
    assert b.State() == BuilderState(Some(Melee), Some(Sword), Some(Slashing), Some([Capture]), Some(Spaces(1)), 2);
    before := b.Build(id);
    CaptureAlone(b.State(), id);
    r := b.AddProperty(MultiFaceted(Whip));
    assert [Capture] + [MultiFaceted(Whip)] == [Capture, MultiFaceted(Whip)];
    assert b.State() == BuilderState(Some(Melee), Some(Sword), Some(Slashing), Some([Capture, MultiFaceted(Whip)]), Some(Spaces(1)), 2);
    after := b.Build(id);
    MultiFacetedWhipBuilds(b.State(), id);
  }

  /** A complete builder whose only property is Heavy is refused for want of
      TwoHanded, whatever its other fields. */
  lemma HeavyAloneReported(b: BuilderState, id: Uuid)
    requires Complete(b) && b.properties == Some([Heavy])
    ensures BuildResult(b, id) == Err(MissingProperty([TwoHanded]))
  {
    CompleteIffNothingMissing(b);
    assert [Heavy][1..] == [];
    assert AbsentDependencies([Heavy], [Heavy]) == [TwoHanded];
  }

  /** Heavy and Thrown together report both their dependencies, in order. */
  lemma HeavyThrownReported(b: BuilderState, id: Uuid)
    requires Complete(b) && b.properties == Some([Heavy, Thrown])
    ensures BuildResult(b, id) == Err(MissingProperty([TwoHanded, Toss]))
  {
    CompleteIffNothingMissing(b);
    MissingDependencyExamples();
  }

  /** Heavy with TwoHanded needs nothing more: a complete builder whose type
      and style agree builds a weapon with exactly those two properties. */
  lemma HeavyTwoHandedBuilds(b: BuilderState, id: Uuid)
    requires Complete(b) && b.properties == Some([Heavy, TwoHanded])
    requires CompatibleWithStyle(b.weaponType.value, b.style.value)
    ensures BuildResult(b, id) == Ok(Weapon(id, b.weaponType.value, b.style.value, b.damageType.value, [Heavy, TwoHanded], b.baseRange.value))
  {
    CompleteIffNothingMissing(b);
    var ps := [Heavy, TwoHanded];
    assert ps[1..] == [TwoHanded];
    assert [TwoHanded][1..] == [];
    assert AbsentDependencies(ps, ps) == [];
    assert FoldFormulas(None, [Heavy, TwoHanded]) == None;
  }

  /** Capture together with `MultiFaceted(Whip)` builds whatever the style,
      as long as type and style agree. */
  lemma MultiFacetedWhipBuilds(b: BuilderState, id: Uuid)
    requires Complete(b) && b.properties == Some([Capture, MultiFaceted(Whip)])
    requires CompatibleWithStyle(b.weaponType.value, b.style.value)
    ensures BuildResult(b, id) == Ok(Weapon(id, b.weaponType.value, b.style.value, b.damageType.value,
                                            [Capture, MultiFaceted(Whip)], b.baseRange.value))
  {
    CompleteIffNothingMissing(b);
    var ps := [Capture, MultiFaceted(Whip)];
    assert ps[1..] == [MultiFaceted(Whip)];
    assert [MultiFaceted(Whip)][1..] == [];
    assert AbsentDependencies(ps, ps) == [];
    assert FoldFormulas(None, ps) == Some(Or(Unit(Chained), Unit(Whip)));
    assert MultiFaceted(Whip) in ps;
  }

  /** A complete melee builder whose only property is Capture: the build
      reports `Chained or Whip` unless the style is one of them. */
  lemma CaptureAlone(b: BuilderState, id: Uuid)
    requires Complete(b) && b.weaponType == Some(Melee) && b.properties == Some([Capture])
    requires b.style.value != Bow && b.style.value != Crossbow
    ensures b.style.value in {Chained, Whip} ==>
      BuildResult(b, id) == Ok(Weapon(id, Melee, b.style.value, b.damageType.value, [Capture], b.baseRange.value))
    ensures b.style.value !in {Chained, Whip} ==>
      BuildResult(b, id) == Err(MissingStyleDependencies(Or(Unit(Chained), Unit(Whip))))
  {
    CompleteIffNothingMissing(b);
    assert [Capture][1..] == [];
    assert AbsentDependencies([Capture], [Capture]) == [];
    assert FoldFormulas(None, [Capture]) == Some(Or(Unit(Chained), Unit(Whip)));
  }
}
