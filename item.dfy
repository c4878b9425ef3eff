/** The earlier weapon builder of `src/dc20/item.rs`. It shares the weapon
    vocabulary and most tables with `src/dc20/item/weapon.rs` but has no base
    range, no dependency or style-formula checks, a narrower melee-legal
    set, and a `MissingProperty` error that names a single property. */
module LegacyItem {
  import opened Utils
  import opened FieldAggregation
  import W = Weapons

  type WeaponType = W.WeaponType
  type WeaponStyle = W.WeaponStyle
  type DamageType = W.DamageType
  type WeaponProperty = W.WeaponProperty

  /** `Item`: a named, identified item. */
  datatype Item = Item(uuid: Uuid, name: string)

  /** `WeaponProperty::get_cost` of this file. */
  function Cost(p: WeaponProperty): (c: int)
    ensures -1 <= c <= 2
    ensures c == -1 <==> p in {W.TwoHanded, W.Unwieldy}
    ensures c == 0 <==> p in {W.Ammo, W.Reload, W.Capture}
    ensures c == 2 <==> p == W.Heavy
  {
    match p
    case Ammo => 0
    case Concealable => 1
    case Guard => 1
    case Heavy => 2
    case Impact => 1
    case LongRanged => 1
    case MultiFaceted(_) => 1
    case Reach => 1
    case Reload => 0
    case Silent => 1
    case Toss => 1
    case Thrown => 1
    case TwoHanded => -1
    case Unwieldy => -1
    case Versatile => 1
    case Returning => 1
    case Capture => 0
  }

  /** Both files price every property the same. */
  lemma CostAgrees(p: WeaponProperty)
    ensures Cost(p) == W.Cost(p)
  {
  }

  /** `WeaponProperty::is_melee_property` of this file: the melee set of
      `weapon.rs` without Returning and Capture. */
  function IsMeleeProperty(p: WeaponProperty): (r: bool)
    ensures r <==> W.IsMeleeProperty(p) && !p.Returning? && !p.Capture?
  {
    p.Concealable? || p.Guard? || p.Heavy? || p.Impact? || p.MultiFaceted? || p.Reach?
    || p.Silent? || p.Toss? || p.Thrown? || p.TwoHanded? || p.Unwieldy? || p.Versatile?
  }

  /** `WeaponType::compatible_with_property` of this file; the ranged-legal
      set is the one of `weapon.rs`. */
  function CompatibleWithProperty(t: WeaponType, p: WeaponProperty): (ok: bool)
    ensures ok <==> (if t == W.Melee then IsMeleeProperty(p) else W.IsRangedProperty(p))
    ensures t == W.Ranged ==> (ok <==> W.CompatibleWithProperty(W.Ranged, p))
    ensures t == W.Melee ==> (ok <==> W.CompatibleWithProperty(W.Melee, p) && !p.Returning? && !p.Capture?)
  {
    match t
    case Melee => IsMeleeProperty(p)
    case Ranged => W.IsRangedProperty(p)
  }

  /** Returning and Capture are the only properties whose legality differs
      between the two files; both are melee-legal only in `weapon.rs`. */
  lemma LegalityDiffers(t: WeaponType, p: WeaponProperty)
    ensures CompatibleWithProperty(t, p) != W.CompatibleWithProperty(t, p)
            <==> t == W.Melee && p in {W.Returning, W.Capture}
  {
  }

  datatype WeaponBuildError =
    | MissingField(fields: seq<string>)
    | IncompatibleStyle(style: WeaponStyle, weaponType: WeaponType)
    | IncompatibleProperty(property: WeaponProperty, weaponType: WeaponType)
    | DuplicateProperty(property: WeaponProperty)
    | MissingProperty(property: WeaponProperty)
    /** Declared, never raised. */
    | PropertyRequiresStyle(property: WeaponProperty, style: WeaponStyle)

  /** `TryFrom<FieldAggregator> for WeaponBuildError`. */
  function ErrorFromAggregator(fields: Option<seq<string>>): (r: Result<WeaponBuildError, ()>)
    ensures r.Ok? <==> fields.Some?
    ensures r.Ok? ==> r.value == MissingField(fields.value)
  {
    match fields
    case Some(names) => Ok(MissingField(names))
    case None => Err(())
  }

  datatype Weapon = Weapon(
    uuid: Uuid,
    weaponType: WeaponType,
    style: WeaponStyle,
    damageType: DamageType,
    properties: seq<WeaponProperty>)

  /** The builder's fields, as a value. */
  datatype BuilderState = BuilderState(
    weaponType: Option<WeaponType>,
    style: Option<WeaponStyle>,
    damageType: Option<DamageType>,
    properties: Option<seq<WeaponProperty>>,
    maxPoints: nat)

  /** The three presence checks of `build`, in their order. */
  function RequiredChecks(b: BuilderState): seq<Check>
  {
    [ Check(b.weaponType.Some?, "weapon_type"),
      Check(b.style.Some?, "style"),
      Check(b.damageType.Some?, "damage_type") ]
  }

  predicate Complete(b: BuilderState)
  {
    b.weaponType.Some? && b.style.Some? && b.damageType.Some?
  }

  /** The names `build` reports for the unset fields, in the order
      weapon_type, style, damage_type. */
  function UnsetFieldNames(b: BuilderState): seq<string>
  {
    (if b.weaponType.None? then ["weapon_type"] else [])
    + (if b.style.None? then ["style"] else [])
    + (if b.damageType.None? then ["damage_type"] else [])
  }

  lemma MissingRequiredChecks(b: BuilderState)
    ensures Missing(RequiredChecks(b)) == UnsetFieldNames(b)
    ensures UnsetFieldNames(b) == [] <==> Complete(b)
  {
    var cs := RequiredChecks(b);
    MissingOfThree(cs[0], cs[1], cs[2]);
    assert cs == [cs[0], cs[1], cs[2]];
  }

  /** What `build` returns for the state `b`, given the identifier: only
      unset fields and a type/style mismatch are ever reported, and a weapon
      carries the identifier and a compatible type and style. */
  function BuildResult(b: BuilderState, id: Uuid): (r: Result<Weapon, WeaponBuildError>)
    ensures r.Err? ==> r.error.MissingField? || r.error.IncompatibleStyle?
    ensures r.Err? && r.error.MissingField? <==> !Complete(b)
    ensures r.Ok? ==> r.value.uuid == id && W.CompatibleWithStyle(r.value.weaponType, r.value.style)
  {
    MissingRequiredChecks(b);
    var missing := Missing(RequiredChecks(b));
    if missing != [] then Err(MissingField(missing))
    else
      if !W.CompatibleWithStyle(b.weaponType.value, b.style.value) then
        Err(IncompatibleStyle(b.style.value, b.weaponType.value))
      else
        Ok(Weapon(id, b.weaponType.value, b.style.value, b.damageType.value, OrEmpty(b.properties)))
  }

  /** `build` reports the unset fields first, in order, then a type/style
      mismatch; otherwise it copies every field, with `[]` for absent
      properties. No dependency or style formula is consulted. */
  lemma BuildOutcomes(b: BuilderState, id: Uuid)
    ensures !Complete(b) ==> BuildResult(b, id) == Err(MissingField(UnsetFieldNames(b)))
    ensures Complete(b) && !W.CompatibleWithStyle(b.weaponType.value, b.style.value) ==>
      BuildResult(b, id) == Err(IncompatibleStyle(b.style.value, b.weaponType.value))
    ensures BuildResult(b, id).Ok? <==> Complete(b) && W.CompatibleWithStyle(b.weaponType.value, b.style.value)
    ensures BuildResult(b, id).Ok? ==>
      BuildResult(b, id).value == Weapon(id, b.weaponType.value, b.style.value, b.damageType.value, OrEmpty(b.properties))
  {
    MissingRequiredChecks(b);
  }

  /** The check `add_property` performs: duplicate first, then legality. */
  function AdditionError(b: BuilderState, p: WeaponProperty): (e: Option<WeaponBuildError>)
    ensures p in OrEmpty(b.properties) ==> e == Some(DuplicateProperty(p))
    ensures p !in OrEmpty(b.properties) && b.weaponType.Some? && !CompatibleWithProperty(b.weaponType.value, p)
            ==> e == Some(IncompatibleProperty(p, b.weaponType.value))
    ensures e.None? <==> p !in OrEmpty(b.properties) && (b.weaponType.Some? ==> CompatibleWithProperty(b.weaponType.value, p))
  {
    if p in OrEmpty(b.properties) then Some(DuplicateProperty(p))
    else if b.weaponType.Some? && !CompatibleWithProperty(b.weaponType.value, p) then
      Some(IncompatibleProperty(p, b.weaponType.value))
    else None
  }

  /** The state after appending `qs`; appending nothing leaves an unset list
      unset. */
  function WithAppended(b: BuilderState, qs: seq<WeaponProperty>): BuilderState
  {
    if qs == [] then b else b.(properties := Some(OrEmpty(b.properties) + qs))
  }

  lemma AppendOneMore(b: BuilderState, ps: seq<WeaponProperty>, i: nat)
    requires i < |ps|
    ensures WithAppended(WithAppended(b, ps[..i]), [ps[i]]) == WithAppended(b, ps[..i + 1])
  {
    assert ps[..i + 1] == ps[..i] + [ps[i]];
    if i > 0 {
      assert OrEmpty(Some(OrEmpty(b.properties) + ps[..i])) + [ps[i]] == OrEmpty(b.properties) + ps[..i + 1];
    } else {
      assert ps[..i] == [];
      assert ps[..i + 1] == [ps[i]];
    }
  }

  class WeaponBuilder {
    var weaponType: Option<WeaponType>
    var style: Option<WeaponStyle>
    var damageType: Option<DamageType>
    var properties: Option<seq<WeaponProperty>>
    /** Stored, never enforced. */
    var maxPoints: nat

    function State(): BuilderState
      reads this
    {
      BuilderState(weaponType, style, damageType, properties, maxPoints)
    }

    /** `WeaponBuilder::new()`. */
    constructor ()
      ensures State() == BuilderState(None, None, None, None, 2)
    {
      weaponType, style, damageType, properties := None, None, None, None;
      maxPoints := 2;
    }

    /** `new_melee()`: the `with_melee` call on a fresh builder cannot fail. */
    constructor NewMelee()
      ensures State() == BuilderState(Some(W.Melee), None, None, None, 2)
    {
      weaponType, style, damageType, properties := None, None, None, None;
      maxPoints := 2;
      new;
      var r := SetWeaponType(W.Melee);
    }

    /** `new_ranged()`: both unwraps succeed, because a ranged weapon accepts
        Ammo, TwoHanded and Unwieldy and none is a duplicate. */
    constructor NewRanged()
      ensures State() == BuilderState(Some(W.Ranged), None, None, Some([W.Ammo, W.TwoHanded, W.Unwieldy]), 2)
    {
      weaponType, style, damageType, properties := None, None, None, None;
      maxPoints := 2;
      new;
      var r := SetWeaponType(W.Ranged);
      var ps := [W.Ammo, W.TwoHanded, W.Unwieldy];
      assert ps[..0] == [] && ps[..1] == [W.Ammo] && ps[..2] == [W.Ammo, W.TwoHanded];
      r := WithProperties(ps);
      if r.Err? {
        assert false;
      }
      assert [] + ps == ps;
    }

    /** `set_weapon_type` (and `with_weapon_type`, `with_melee`,
        `with_ranged`): refused when the style already set is incompatible,
        and then nothing changes; otherwise only the type is set. */
    method SetWeaponType(t: WeaponType) returns (r: Result<(), WeaponBuildError>)
      modifies this
      ensures old(style).Some? && !W.CompatibleWithStyle(t, old(style).value) ==>
        r == Err(IncompatibleStyle(old(style).value, t)) && State() == old(State())
      ensures old(style).None? || W.CompatibleWithStyle(t, old(style).value) ==>
        r == Ok(()) && State() == old(State()).(weaponType := Some(t))
    {
      if style.Some? && !W.CompatibleWithStyle(t, style.value) {
        return Err(IncompatibleStyle(style.value, t));
      }
      weaponType := Some(t);
      r := Ok(());
    }

    /** `set_style` (and `with_style`): refused when the type already set is
        incompatible; otherwise seeds the style's default damage type when
        none is set (none for Fist) and sets the style. */
    method SetStyle(s: WeaponStyle) returns (r: Result<(), WeaponBuildError>)
      modifies this
      ensures old(weaponType).Some? && !W.CompatibleWithStyle(old(weaponType).value, s) ==>
        r == Err(IncompatibleStyle(s, old(weaponType).value)) && State() == old(State())
      ensures old(weaponType).None? || W.CompatibleWithStyle(old(weaponType).value, s) ==>
        r == Ok(()) && State() == old(State()).(style := Some(s), damageType := W.SeedIfUnset(old(damageType), W.DefaultDamageType(s)))
    {
      if weaponType.Some? && !W.CompatibleWithStyle(weaponType.value, s) {
        return Err(IncompatibleStyle(s, weaponType.value));
      }
      if damageType.None? {
        damageType := W.DefaultDamageType(s);
      }
      style := Some(s);
      r := Ok(());
    }

    /** `set_damage_type` (and `with_damage_type`): always overwrites. */
    method SetDamageType(d: DamageType)
      modifies this
      ensures State() == old(State()).(damageType := Some(d))
    {
      damageType := Some(d);
    }

    /** `add_property` (and `with_property`): a duplicate, then an illegal
        property, is refused and nothing changes; otherwise `p` is appended
        at the end. */
    method AddProperty(p: WeaponProperty) returns (r: Result<(), WeaponBuildError>)
      modifies this
      ensures AdditionError(old(State()), p).Some? ==>
        r == Err(AdditionError(old(State()), p).value) && State() == old(State())
      ensures AdditionError(old(State()), p).None? ==>
        r == Ok(()) && State() == WithAppended(old(State()), [p])
    {
      if properties.Some? && p in properties.value {
        return Err(DuplicateProperty(p));
      }
      if weaponType.Some? && !CompatibleWithProperty(weaponType.value, p) {
        return Err(IncompatibleProperty(p, weaponType.value));
      }
      properties := Some(OrEmpty(properties) + [p]);
      r := Ok(());
    }

    /** `with_properties`: adds in order and stops at the first refusal. */
    method WithProperties(ps: seq<WeaponProperty>) returns (r: Result<(), WeaponBuildError>)
      modifies this
      ensures r.Ok? ==> State() == WithAppended(old(State()), ps)
                        && forall j | 0 <= j < |ps| :: AdditionError(WithAppended(old(State()), ps[..j]), ps[j]).None?
      ensures r.Err? ==> exists k | 0 <= k < |ps| ::
        && (forall j | 0 <= j < k :: AdditionError(WithAppended(old(State()), ps[..j]), ps[j]).None?)
        && AdditionError(WithAppended(old(State()), ps[..k]), ps[k]) == Some(r.error)
        && State() == WithAppended(old(State()), ps[..k])
    {
      var i := 0;
      while i < |ps|
        invariant 0 <= i <= |ps|
        invariant State() == WithAppended(old(State()), ps[..i])
        invariant forall j | 0 <= j < i :: AdditionError(WithAppended(old(State()), ps[..j]), ps[j]).None?
      {
        r := AddProperty(ps[i]);
        if r.Err? {
          return;
        }
        AppendOneMore(old(State()), ps, i);
        i := i + 1;
      }
      assert ps[..i] == ps;
      r := Ok(());
    }

    /** `remove_property` (and `without_property`): refused with
        `MissingField(["properties"])` when the list was never created and
        with `MissingProperty(p)` when `p` is absent; otherwise the first
        occurrence of `p` is removed and the rest keeps its order. */
    method RemoveProperty(p: WeaponProperty) returns (r: Result<(), WeaponBuildError>)
      modifies this
      ensures old(properties).None? ==>
        r == Err(MissingField(["properties"])) && State() == old(State())
      ensures old(properties).Some? && p !in old(properties).value ==>
        r == Err(MissingProperty(p)) && State() == old(State())
      ensures old(properties).Some? && p in old(properties).value ==>
        && r == Ok(())
        && (exists i | 0 <= i < |old(properties).value| ::
              && old(properties).value[i] == p
              && p !in old(properties).value[..i]
              && State() == old(State()).(properties := Some(old(properties).value[..i] + old(properties).value[i + 1..])))
        && multiset(OrEmpty(properties)) == multiset(old(properties).value) - multiset{p}
    {
      if properties.None? {
        return Err(MissingField(["properties"]));
      }
      var ps := properties.value;
      var index := W.Position(ps, p);
      if index.None? {
        return Err(MissingProperty(p));
      }
      var i := index.value;
      properties := Some(ps[..i] + ps[i + 1..]);
      assert ps == ps[..i] + [p] + ps[i + 1..];
      r := Ok(());
    }

    /** `build`: reads the builder only. */
    method Build(id: Uuid) returns (r: Result<Weapon, WeaponBuildError>)
      ensures r == BuildResult(State(), id)
    {
      var fa := new FieldAggregator();
      fa.FieldCheck(weaponType, "weapon_type");
      fa.FieldCheck(style, "style");
      fa.FieldCheck(damageType, "damage_type");
      assert fa.checks == RequiredChecks(State());
      RunIsMissing(fa.checks);
      var missing := Swap(ErrorFromAggregator(fa.fields));
      if missing.Err? {
        return Err(missing.error);
      }
      MissingRequiredChecks(State());
      var t := weaponType.value;
      var s := style.value;
      if W.CompatibleWithStyle(t, s) {
        r := Ok(Weapon(id, t, s, damageType.value, OrEmpty(properties)));
      } else {
        r := Err(IncompatibleStyle(s, t));
      }
    }
  }
}
