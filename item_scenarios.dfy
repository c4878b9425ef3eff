/** The behaviour the crate's tests of the earlier weapon builder pin down
    (`src/dc20/item.rs`, tests module), as client code of
    `LegacyItem.WeaponBuilder`. */
module ItemScenarios {
  import opened Utils
  import W = Weapons
  import opened LegacyItem

  /** A bow style forced onto a melee weapon by field access is caught by
      `build`. */
  method IncompatibleStyleCaughtAtBuild(id: Uuid) returns (styled: Result<(), WeaponBuildError>, built: Result<Weapon, WeaponBuildError>)
    ensures styled == Ok(())
    ensures built == Err(IncompatibleStyle(W.Bow, W.Melee))
  {
    var b := new WeaponBuilder();
    styled := b.SetStyle(W.Bow);
    b.weaponType := Some(W.Melee);
    built := b.Build(id);
    BuildOutcomes(b.State(), id);
  }

  /** Duplicates are refused; removal from an unset list or of an absent
      property is refused with the single-property error. */
  method Refusals() returns (duplicate: Result<(), WeaponBuildError>, fromNone: Result<(), WeaponBuildError>,
                             absent: Result<(), WeaponBuildError>)
    ensures duplicate == Err(DuplicateProperty(W.Ammo))
    ensures fromNone == Err(MissingField(["properties"]))
    ensures absent == Err(MissingProperty(W.Ammo))
  {
    var b := new WeaponBuilder();
    var r := b.AddProperty(W.Ammo);
    duplicate := b.AddProperty(W.Ammo);
    b := new WeaponBuilder();
    fromNone := b.RemoveProperty(W.Ammo);
    b := new WeaponBuilder.NewMelee();
    r := b.AddProperty(W.Impact);
    absent := b.RemoveProperty(W.Ammo);
  }

  /** The three required fields are reported, then two, and a melee sword
      builds with no properties. */
  method RequiredFieldsEnforced(id: Uuid) returns (empty: Result<Weapon, WeaponBuildError>, typed: Result<Weapon, WeaponBuildError>,
                                                   done: Result<Weapon, WeaponBuildError>)
    ensures empty == Err(MissingField(["weapon_type", "style", "damage_type"]))
    ensures typed == Err(MissingField(["style", "damage_type"]))
    ensures done == Ok(Weapon(id, W.Melee, W.Sword, W.Slashing, []))
  {
    var b := new WeaponBuilder();
    empty := b.Build(id);
    BuildOutcomes(b.State(), id);
    assert UnsetFieldNames(b.State()) == ["weapon_type", "style", "damage_type"];
    var r := b.SetWeaponType(W.Melee);
    typed := b.Build(id);
    BuildOutcomes(b.State(), id);
    assert UnsetFieldNames(b.State()) == ["style", "damage_type"];
    r := b.SetStyle(W.Sword);
    done := b.Build(id);
    BuildOutcomes(b.State(), id);
  }

  /** Fist seeds no damage type; an explicit damage type is kept. */
  method DamageTypeSeeding() returns (fist: Option<DamageType>, kept: Option<DamageType>)
    ensures fist == None
    ensures kept == Some(W.Bludgeoning)
  {
    var b := new WeaponBuilder.NewMelee();
    var r := b.SetStyle(W.Fist);
    fist := b.damageType;
    b := new WeaponBuilder.NewMelee();
    b.SetDamageType(W.Bludgeoning);
    r := b.SetStyle(W.Sword);
    kept := b.damageType;
  }

  /** Property legality follows the weapon type; a Heavy property is legal
      for both. */
  method PropertyLegality() returns (longRanged: Result<(), WeaponBuildError>, reach: Result<(), WeaponBuildError>,
                                     meleeHeavy: Result<(), WeaponBuildError>, meleeHeavyState: BuilderState,
                                     rangedHeavy: BuilderState)
    ensures longRanged == Err(IncompatibleProperty(W.LongRanged, W.Melee))
    ensures reach == Err(IncompatibleProperty(W.Reach, W.Ranged))
    ensures meleeHeavy == Ok(()) && meleeHeavyState == BuilderState(Some(W.Melee), None, None, Some([W.Heavy]), 2)
    ensures rangedHeavy == BuilderState(Some(W.Ranged), None, None, Some([W.Heavy]), 2)
  {
    var b := new WeaponBuilder.NewMelee();
    longRanged := b.AddProperty(W.LongRanged);
    b := new WeaponBuilder.NewRanged();
    reach := b.AddProperty(W.Reach);
    b := new WeaponBuilder.NewMelee();
    meleeHeavy := b.AddProperty(W.Heavy);
    assert [] + [W.Heavy] == [W.Heavy];
    meleeHeavyState := b.State();
    b := new WeaponBuilder();
    var r := b.SetWeaponType(W.Ranged);
    r := b.AddProperty(W.Heavy);
    assert [] + [W.Heavy] == [W.Heavy];
    rangedHeavy := b.State();
  }

  /** Capture, legal for melee weapons in `weapon.rs`, is refused here. */
  method CaptureRefused() returns (capture: Result<(), WeaponBuildError>)
    ensures capture == Err(IncompatibleProperty(W.Capture, W.Melee))
  {
    var b := new WeaponBuilder.NewMelee();
    capture := b.AddProperty(W.Capture);
  }
}
