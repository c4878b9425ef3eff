/** The weapon configuration engine of `src/dc20/item/weapon.rs`: the closed
    vocabulary of weapon types, styles, damage types and properties with their
    lookup tables, the property and style dependency rules, the mutable
    `WeaponBuilder`, and the `Weapon` it produces. */
module Weapons {
  import opened Utils
  import opened Logic
  import opened FieldAggregation
  import opened Spell

  // ---------------------------------------------------------------------
  // Vocabulary
  // ---------------------------------------------------------------------

  datatype WeaponType = Melee | Ranged

  datatype WeaponStyle =
    | Axe | Bow | Chained | Crossbow | Fist | Hammer | Pick | Spear | Staff | Sword | Whip

  datatype DamageType = Bludgeoning | Piercing | Slashing

  /** `MultiFaceted(s)` lets the weapon count as style `s` for style
      requirements. */
  datatype WeaponProperty =
    | Ammo | Concealable | Guard | Heavy | Impact | LongRanged
    | MultiFaceted(alsoStyle: WeaponStyle)
    | Reach | Reload | Silent | Toss | Thrown | TwoHanded | Unwieldy | Versatile
    | Returning | Capture

  /** The `Display` (= `Debug`) name of a style: a capitalised word of
      letters only, so never a parenthesis. */
  function StyleName(s: WeaponStyle): (r: string)
    ensures |r| >= 3 && 'A' <= r[0] <= 'Z'
    ensures forall i | 1 <= i < |r| :: 'a' <= r[i] <= 'z'
  {
    match s
    case Axe => "Axe"
    case Bow => "Bow"
    case Chained => "Chained"
    case Crossbow => "Crossbow"
    case Fist => "Fist"
    case Hammer => "Hammer"
    case Pick => "Pick"
    case Spear => "Spear"
    case Staff => "Staff"
    case Sword => "Sword"
    case Whip => "Whip"
  }

  // ---------------------------------------------------------------------
  // Lookup tables
  // ---------------------------------------------------------------------

  /** `WeaponType::compatible_with_style` (and its mirror
      `WeaponStyle::compatible_with_type`). */
  function CompatibleWithStyle(t: WeaponType, s: WeaponStyle): (ok: bool)
    ensures t == Ranged ==> (ok <==> s == Bow || s == Crossbow)
    ensures t == Melee ==> (ok <==> s != Bow && s != Crossbow)
  {
    match t
    case Melee => !(s == Bow || s == Crossbow)
    case Ranged => s == Bow || s == Crossbow
  }

  /** Every style pairs with exactly one weapon type. */
  lemma StyleHasOneType(s: WeaponStyle)
    ensures CompatibleWithStyle(Melee, s) != CompatibleWithStyle(Ranged, s)
  {
  }

  /** `WeaponProperty::is_melee_property`: every property but the three
      that only make sense with ammunition. */
  function IsMeleeProperty(p: WeaponProperty): (r: bool)
    ensures r <==> p !in {Ammo, LongRanged, Reload}
  {
    p.Concealable? || p.Guard? || p.Heavy? || p.Impact? || p.MultiFaceted? || p.Reach?
    || p.Silent? || p.Toss? || p.Thrown? || p.TwoHanded? || p.Unwieldy? || p.Versatile?
    || p.Returning? || p.Capture?
  }

  /** `WeaponProperty::is_ranged_property`: a property that is not ranged
      is melee, and the ranged ones that are also melee are Heavy, Impact,
      TwoHanded and Unwieldy. */
  function IsRangedProperty(p: WeaponProperty): (r: bool)
    ensures !r ==> IsMeleeProperty(p)
    ensures r && IsMeleeProperty(p) <==> p in {Heavy, Impact, TwoHanded, Unwieldy}
  {
    p.Ammo? || p.Heavy? || p.Impact? || p.LongRanged? || p.Reload? || p.TwoHanded? || p.Unwieldy?
  }

  /** `WeaponType::compatible_with_property` (and its mirror
      `WeaponProperty::compatible_with_weapon_type`): membership in the type's
      legal set. The two sets overlap in exactly four properties, and every
      property is legal for at least one type. */
  function CompatibleWithProperty(t: WeaponType, p: WeaponProperty): (ok: bool)
    ensures ok <==> (if t == Melee then IsMeleeProperty(p) else IsRangedProperty(p))
    ensures ok && (if t == Melee then IsRangedProperty(p) else IsMeleeProperty(p))
            <==> p in {Heavy, Impact, TwoHanded, Unwieldy}
    ensures p in {Ammo, LongRanged, Reload} ==> (ok <==> t == Ranged)
  {
    match t
    case Melee => IsMeleeProperty(p)
    case Ranged => IsRangedProperty(p)
  }

  /** Every property is legal for at least one weapon type. */
  lemma EveryPropertyHasAType(p: WeaponProperty)
    ensures exists t: WeaponType :: CompatibleWithProperty(t, p)
  {
    if IsMeleeProperty(p) {
      assert CompatibleWithProperty(Melee, p);
    } else {
      assert CompatibleWithProperty(Ranged, p);
    }
  }

  /** `WeaponType::default_base_range`: one space for melee, five for ranged. */
  function DefaultBaseRange(t: WeaponType): (r: Range)
    ensures r.Spaces?
    ensures t == Melee ==> r == Spaces(1)
    ensures t == Ranged ==> r == Spaces(5)
  {
    match t
    case Melee => Spaces(1)
    case Ranged => Spaces(5)
  }

  /** `WeaponStyle::default_damage_type`: absent only for Fist. */
  function DefaultDamageType(s: WeaponStyle): (d: Option<DamageType>)
    ensures d.None? <==> s == Fist
    ensures s in {Axe, Sword, Whip} ==> d == Some(Slashing)
    ensures s in {Bow, Crossbow, Pick, Spear} ==> d == Some(Piercing)
    ensures s in {Chained, Hammer, Staff} ==> d == Some(Bludgeoning)
  {
    match s
    case Axe | Sword | Whip => Some(Slashing)
    case Bow | Crossbow | Pick | Spear => Some(Piercing)
    case Chained | Hammer | Staff => Some(Bludgeoning)
    case Fist => None
  }

  /** `WeaponProperty::get_cost`: a signed point cost between -1 and 2. */
  function Cost(p: WeaponProperty): (c: int)
    ensures -1 <= c <= 2
    ensures c == -1 <==> p in {TwoHanded, Unwieldy}
    ensures c == 0 <==> p in {Ammo, Reload, Capture}
    ensures c == 2 <==> p == Heavy
  {
    match p
    case TwoHanded | Unwieldy => -1
    case Ammo | Reload | Capture => 0
    case Heavy => 2
    case _ => 1
  }

  /** `WeaponProperty::get_property_dependency`: Heavy needs TwoHanded,
      Thrown and Returning need Toss. A dependency never has a dependency of
      its own, so one step reaches the closure. */
  function PropertyDependency(p: WeaponProperty): (d: Option<WeaponProperty>)
    ensures d.Some? <==> p in {Heavy, Thrown, Returning}
    ensures p == Heavy ==> d == Some(TwoHanded)
    ensures p in {Thrown, Returning} ==> d == Some(Toss)
    ensures d.Some? ==> d.value != p && d.value in {TwoHanded, Toss}
  {
    match p
    case Heavy => Some(TwoHanded)
    case Thrown | Returning => Some(Toss)
    case _ => None
  }

  /** A dependency has no dependency of its own. */
  lemma DependencyHasNoDependency(p: WeaponProperty)
    requires PropertyDependency(p).Some?
    ensures PropertyDependency(PropertyDependency(p).value).None?
  {
  }

  /** A property legal for a type only ever depends on a property legal for
      the same type, so a dependency can always be satisfied. */
  lemma DependencyIsLegal(t: WeaponType, p: WeaponProperty)
    requires CompatibleWithProperty(t, p) && PropertyDependency(p).Some?
    ensures CompatibleWithProperty(t, PropertyDependency(p).value)
  {
  }

  /** The formula Capture demands: `Chained or Whip`. */
  function CaptureFormula(): Logical<WeaponStyle>
  {
    Unit(Chained).OrWith(Unit(Whip))
  }

  /** `WeaponProperty::get_style_dependency`: only Capture has a style
      formula. */
  function StyleDependency(p: WeaponProperty): (f: Option<Logical<WeaponStyle>>)
    ensures f.Some? <==> p == Capture
    ensures f.Some? ==> f.value == Or(Unit(Chained), Unit(Whip))
  {
    match p
    case Capture => Some(CaptureFormula())
    case _ => None
  }

  /** No style name holds a parenthesis. */
  lemma StyleNamesParenFree()
    ensures ParenFree(StyleName)
  {
    forall s: WeaponStyle
      ensures Count('(', StyleName(s)) == 0 && Count(')', StyleName(s)) == 0
    {
      CountAbsent('(', StyleName(s));
      CountAbsent(')', StyleName(s));
    }
  }

  /** Capture's formula renders as `(Chained or Whip)`, and every style
      formula renders well parenthesised. */
  lemma StyleFormulaRendering(f: Logical<WeaponStyle>)
    ensures Render(CaptureFormula(), StyleName) == "(Chained or Whip)"
    ensures Balanced(Render(f, StyleName))
  {
    StyleNamesParenFree();
    RenderBalanced(f, StyleName);
  }

  // ---------------------------------------------------------------------
  // Errors and the finished weapon
  // ---------------------------------------------------------------------

  datatype WeaponBuildError =
    | MissingField(fields: seq<string>)
    | IncompatibleStyle(style: WeaponStyle, weaponType: WeaponType)
    | IncompatibleProperty(property: WeaponProperty, weaponType: WeaponType)
    | DuplicateProperty(property: WeaponProperty)
    | MissingProperty(properties: seq<WeaponProperty>)
    | MissingStyleDependencies(formula: Logical<WeaponStyle>)

  /** `TryFrom<FieldAggregator> for WeaponBuildError`: a `MissingField` error
      when the aggregator collected names, `Err(())` when it holds nothing. */
  function ErrorFromAggregator(fields: Option<seq<string>>): (r: Result<WeaponBuildError, ()>)
    ensures r.Ok? <==> fields.Some?
    ensures r.Ok? ==> r.value == MissingField(fields.value)
  {
    match fields
    case Some(names) => Ok(MissingField(names))
    case None => Err(())
  }

  datatype Weapon = Weapon(
    uuid: Uuid,
    weaponType: WeaponType,
    style: WeaponStyle,
    damageType: DamageType,
    properties: seq<WeaponProperty>,
    baseRange: Range)

  // ---------------------------------------------------------------------
  // Dependency rules, evaluated against builder state
  // ---------------------------------------------------------------------

  /** The builder's fields, as a value. */
  datatype BuilderState = BuilderState(
    weaponType: Option<WeaponType>,
    style: Option<WeaponStyle>,
    damageType: Option<DamageType>,
    properties: Option<seq<WeaponProperty>>,
    baseRange: Option<Range>,
    maxPoints: nat)

  /** Every property's dependency, if it has one, is among `ps`. */
  ghost predicate DependencyClosed(ps: seq<WeaponProperty>)
  {
    forall i | 0 <= i < |ps| :: PropertyDependency(ps[i]).Some? ==> PropertyDependency(ps[i]).value in ps
  }

  /** The dependencies of the properties `ps` that are absent from `all`, in
      the order of `ps` and with repetitions. */
  function AbsentDependencies(ps: seq<WeaponProperty>, all: seq<WeaponProperty>): (r: seq<WeaponProperty>)
    ensures |r| <= |ps|
    ensures forall d | d in r :: d !in all
    ensures forall d | d in r :: exists i | 0 <= i < |ps| :: PropertyDependency(ps[i]) == Some(d)
    ensures forall i | 0 <= i < |ps| && PropertyDependency(ps[i]).Some? && PropertyDependency(ps[i]).value !in all
              :: PropertyDependency(ps[i]).value in r
  {
    if ps == [] then []
    else
      var d := PropertyDependency(ps[0]);
      (if d.Some? && d.value !in all then [d.value] else []) + AbsentDependencies(ps[1..], all)
  }

  /** `missing_dependency_properties`: nothing without a property list;
      otherwise at most one entry per property, each a dependency of some
      property of the list and absent from it. */
  function MissingDependencyProperties(b: BuilderState): (r: seq<WeaponProperty>)
    ensures b.properties.None? ==> r == []
    ensures |r| <= |OrEmpty(b.properties)|
    ensures forall d | d in r :: d !in OrEmpty(b.properties)
    ensures forall d | d in r :: exists p | p in OrEmpty(b.properties) :: PropertyDependency(p) == Some(d)
  {
    if b.properties.None? then [] else AbsentDependencies(b.properties.value, b.properties.value)
  }

  /** No dependency is reported missing exactly when the property list is
      closed under dependencies. */
  lemma MissingDependenciesEmptyIff(b: BuilderState)
    ensures MissingDependencyProperties(b) == [] <==> DependencyClosed(OrEmpty(b.properties))
  {
    var ps := OrEmpty(b.properties);
    if MissingDependencyProperties(b) == [] {
      assert AbsentDependencies(ps, ps) == [];
    } else {
      var d := MissingDependencyProperties(b)[0];
      assert d in AbsentDependencies(ps, ps);
    }
  }

  /** One absent dependency per property that needs it: Thrown and
      Returning together report Toss twice. */
  lemma MissingDependencyExamples()
    ensures AbsentDependencies([Thrown, Returning], [Thrown, Returning]) == [Toss, Toss]
    ensures AbsentDependencies([Heavy, Thrown], [Heavy, Thrown]) == [TwoHanded, Toss]
    ensures AbsentDependencies([Heavy, TwoHanded], [Heavy, TwoHanded]) == []
  {
    assert [Thrown, Returning][1..] == [Returning];
    assert [Heavy, Thrown][1..] == [Thrown];
    assert [Heavy, TwoHanded][1..] == [TwoHanded];
  }

  /** A single property contributes its dependency exactly when it has one
      and that one is absent from `all`. */
  lemma AbsentDependencySingle(p: WeaponProperty, all: seq<WeaponProperty>)
    ensures AbsentDependencies([p], all) ==
      if PropertyDependency(p).Some? && PropertyDependency(p).value !in all then [PropertyDependency(p).value] else []
  {
    assert [p][1..] == [];
  }

  /** The report over a concatenation is the concatenation of the reports:
      entries come in property order, one per property, repetitions kept.
      With the single-property case this determines the list completely. */
  lemma {:induction false} AbsentDependenciesConcat(a: seq<WeaponProperty>, b: seq<WeaponProperty>, all: seq<WeaponProperty>)
    ensures AbsentDependencies(a + b, all) == AbsentDependencies(a, all) + AbsentDependencies(b, all)
    decreases |a|
  {
    if a == [] {
      assert a + b == b;
    } else {
      assert (a + b)[0] == a[0];
      assert (a + b)[1..] == a[1..] + b;
      AbsentDependenciesConcat(a[1..], b, all);
    }
  }

  /** One step of the fold of `get_style_dependencies`: a property without a
      formula is skipped, the first formula starts the accumulator, each
      later one is joined on the right with `and`. */
  function JoinFormula(acc: Option<Logical<WeaponStyle>>, f: Option<Logical<WeaponStyle>>): Option<Logical<WeaponStyle>>
  {
    if f.None? then acc
    else if acc.None? then f
    else Some(acc.value.AndWith(f.value))
  }

  /** The left fold of the properties' style formulas from the accumulator
      `acc`. */
  function FoldFormulas(acc: Option<Logical<WeaponStyle>>, ps: seq<WeaponProperty>): Option<Logical<WeaponStyle>>
    decreases |ps|
  {
    if ps == [] then acc else FoldFormulas(JoinFormula(acc, StyleDependency(ps[0])), ps[1..])
  }

  /** `get_style_dependencies`: a formula exactly when Capture is among the
      properties, and it is met exactly when every property's own formula
      is. */
  function StyleDependencies(b: BuilderState): (r: Option<Logical<WeaponStyle>>)
    ensures r.Some? <==> Capture in OrEmpty(b.properties)
    ensures r.Some? ==>
      (MeetsStyle(b.style, b.properties, r.value) <==> StyleRequirementsMet(b.style, OrEmpty(b.properties)))
  {
    if b.properties.None? then None
    else
      FoldFormulasMeaning(b.style, b.properties.value, None, b.properties.value);
      FoldFormulas(None, b.properties.value)
  }

  /** The styles a weapon counts as: its own, if set, and every style a
      `MultiFaceted` property grants. */
  function GrantedStyles(style: Option<WeaponStyle>, properties: Option<seq<WeaponProperty>>): set<WeaponStyle>
  {
    (if style.Some? then {style.value} else {})
    + set p | p in OrEmpty(properties) && p.MultiFaceted? :: p.alsoStyle
  }

  /** `meets_style_requirements`: a style leaf holds when it is the
      builder's style or when a `MultiFaceted` property grants it; the
      formula is thus evaluated with exactly the granted styles true. */
  function MeetsStyle(style: Option<WeaponStyle>, properties: Option<seq<WeaponProperty>>, f: Logical<WeaponStyle>): (r: bool)
    ensures r <==> Holds(f, GrantedStyles(style, properties))
  {
    match f
    case Unit(s) => (style.Some? && style.value == s) || (properties.Some? && MultiFaceted(s) in properties.value)
    case Or(l, r) => MeetsStyle(style, properties, l) || MeetsStyle(style, properties, r)
    case And(l, r) => MeetsStyle(style, properties, l) && MeetsStyle(style, properties, r)
  }

  /** Every style formula of a property in `ps` is met. */
  ghost predicate StyleRequirementsMet(style: Option<WeaponStyle>, ps: seq<WeaponProperty>)
  {
    forall i | 0 <= i < |ps| :: StyleDependency(ps[i]).Some? ==> MeetsStyle(style, Some(ps), StyleDependency(ps[i]).value)
  }

  /** The fold yields a formula exactly when the accumulator or some property
      has one, and that formula holds exactly when the accumulator and every
      property's formula hold. */
  lemma {:induction false} FoldFormulasMeaning(
    style: Option<WeaponStyle>, all: seq<WeaponProperty>,
    acc: Option<Logical<WeaponStyle>>, ps: seq<WeaponProperty>)
    ensures FoldFormulas(acc, ps).Some? <==> acc.Some? || Capture in ps
    ensures FoldFormulas(acc, ps).Some? ==>
      (MeetsStyle(style, Some(all), FoldFormulas(acc, ps).value) <==>
        (acc.Some? ==> MeetsStyle(style, Some(all), acc.value))
        && forall i | 0 <= i < |ps| :: StyleDependency(ps[i]).Some? ==> MeetsStyle(style, Some(all), StyleDependency(ps[i]).value))
    decreases |ps|
  {
    if ps != [] {
      var acc' := JoinFormula(acc, StyleDependency(ps[0]));
      FoldFormulasMeaning(style, all, acc', ps[1..]);
      assert Capture in ps <==> ps[0] == Capture || Capture in ps[1..] by {
        assert ps == [ps[0]] + ps[1..];
      }
      forall i | 0 <= i < |ps[1..]|
        ensures ps[1..][i] == ps[i + 1]
      {
      }
    }
  }

  /** The combined formula exists exactly when Capture is present, and it is
      met exactly when each property's own formula is met; for the one
      formula in the table that means: the style is Chained or Whip, or a
      `MultiFaceted` property grants one of them. */
  lemma StyleDependenciesMeaning(b: BuilderState)
    ensures StyleDependencies(b).Some? <==> Capture in OrEmpty(b.properties)
    ensures StyleDependencies(b).None? ==> StyleRequirementsMet(b.style, OrEmpty(b.properties))
    ensures StyleDependencies(b).Some? ==>
      (MeetsStyle(b.style, b.properties, StyleDependencies(b).value) <==> StyleRequirementsMet(b.style, OrEmpty(b.properties)))
    ensures StyleDependencies(b).Some? ==>
      (MeetsStyle(b.style, b.properties, StyleDependencies(b).value) <==>
        b.style == Some(Chained) || b.style == Some(Whip)
        || MultiFaceted(Chained) in OrEmpty(b.properties) || MultiFaceted(Whip) in OrEmpty(b.properties))
  {
    if b.properties.Some? {
      var ps := b.properties.value;
      FoldFormulasMeaning(b.style, ps, None, ps);
      if Capture in ps {
        var k :| 0 <= k < |ps| && ps[k] == Capture;
        assert StyleDependency(ps[k]).Some?;
      } else {
        assert forall i | 0 <= i < |ps| :: StyleDependency(ps[i]).None?;
      }
    }
  }

  // ---------------------------------------------------------------------
  // build
  // ---------------------------------------------------------------------

  /** The four presence checks of `build`, in their order. */
  function RequiredChecks(b: BuilderState): seq<Check>
  {
    [ Check(b.weaponType.Some?, "weapon_type"),
      Check(b.style.Some?, "style"),
      Check(b.damageType.Some?, "damage_type"),
      Check(b.baseRange.Some?, "base_range") ]
  }

  /** Every field `build` requires is set. */
  predicate Complete(b: BuilderState)
  {
    b.weaponType.Some? && b.style.Some? && b.damageType.Some? && b.baseRange.Some?
  }

  lemma CompleteIffNothingMissing(b: BuilderState)
    ensures Missing(RequiredChecks(b)) == [] <==> Complete(b)
  {
    var cs := RequiredChecks(b);
    MissingMeaning(cs);
    assert cs[0].present == b.weaponType.Some?;
    assert cs[1].present == b.style.Some?;
    assert cs[2].present == b.damageType.Some?;
    assert cs[3].present == b.baseRange.Some?;
  }

  /** What `build` returns for the builder state `b`, given the identifier
      the weapon is stamped with. */
  function BuildResult(b: BuilderState, id: Uuid): (r: Result<Weapon, WeaponBuildError>)
    ensures r.Ok? ==> r.value.uuid == id && WellFormed(r.value)
    ensures r.Err? && r.error.MissingField? ==> r.error.fields != [] && !Complete(b)
    ensures r.Err? && r.error.MissingProperty? ==> r.error.properties != [] && !DependencyClosed(OrEmpty(b.properties))
  {
    CompleteIffNothingMissing(b);
    MissingDependenciesEmptyIff(b);
    var missing := Missing(RequiredChecks(b));
    if missing != [] then Err(MissingField(missing))
    else
      var deps := MissingDependencyProperties(b);
      if deps != [] then Err(MissingProperty(deps))
      else
        var formula := StyleDependencies(b);
        if formula.Some? && !MeetsStyle(b.style, b.properties, formula.value) then
          Err(MissingStyleDependencies(formula.value))
        else if !CompatibleWithStyle(b.weaponType.value, b.style.value) then
          Err(IncompatibleStyle(b.style.value, b.weaponType.value))
        else
          Ok(Weapon(id, b.weaponType.value, b.style.value, b.damageType.value, OrEmpty(b.properties), b.baseRange.value))
  }

  /** The invariant of every finished weapon: type and style agree, the
      properties are closed under dependencies, and every style formula is
      met. */
  ghost predicate WellFormed(w: Weapon)
  {
    && CompatibleWithStyle(w.weaponType, w.style)
    && DependencyClosed(w.properties)
    && StyleRequirementsMet(Some(w.style), w.properties)
  }

  /** `build` succeeds exactly when every required field is set, the
      properties are closed under dependencies, every style formula is met
      and type and style agree; the weapon then copies every field, takes
      `[]` for absent properties, carries the given identifier, and is well
      formed. */
  lemma BuildSucceedsIff(b: BuilderState, id: Uuid)
    ensures BuildResult(b, id).Ok? <==>
      && Complete(b)
      && DependencyClosed(OrEmpty(b.properties))
      && StyleRequirementsMet(b.style, OrEmpty(b.properties))
      && CompatibleWithStyle(b.weaponType.value, b.style.value)
    ensures BuildResult(b, id).Ok? ==>
      && BuildResult(b, id).value == Weapon(id, b.weaponType.value, b.style.value, b.damageType.value, OrEmpty(b.properties), b.baseRange.value)
      && WellFormed(BuildResult(b, id).value)
  {
    CompleteIffNothingMissing(b);
    MissingDependenciesEmptyIff(b);
    StyleDependenciesMeaning(b);
    var ps := OrEmpty(b.properties);
    if b.properties.None? {
      assert ps == [];
    } else {
      assert b.properties == Some(ps);
    }
  }

  /** The names `build` reports for the unset required fields, in the order
      weapon_type, style, damage_type, base_range. */
  function UnsetFieldNames(b: BuilderState): seq<string>
  {
    (if b.weaponType.None? then ["weapon_type"] else [])
    + (if b.style.None? then ["style"] else [])
    + (if b.damageType.None? then ["damage_type"] else [])
    + (if b.baseRange.None? then ["base_range"] else [])
  }

  lemma MissingRequiredChecks(b: BuilderState)
    ensures Missing(RequiredChecks(b)) == UnsetFieldNames(b)
  {
    var cs := RequiredChecks(b);
    MissingOfFour(cs[0], cs[1], cs[2], cs[3]);
    assert cs == [cs[0], cs[1], cs[2], cs[3]];
  }

  /** Step 1: every unset required field is reported at once, in the order
      weapon_type, style, damage_type, base_range. */
  lemma BuildReportsMissingFields(b: BuilderState, id: Uuid)
    requires !Complete(b)
    ensures UnsetFieldNames(b) != []
    ensures BuildResult(b, id) == Err(MissingField(UnsetFieldNames(b)))
  {
    CompleteIffNothingMissing(b);
    MissingRequiredChecks(b);
  }

  /** Step 2: with every field set, the absent dependencies are reported, in
      property order and with repetitions, before any style check. */
  lemma BuildReportsMissingDependencies(b: BuilderState, id: Uuid)
    requires Complete(b) && !DependencyClosed(OrEmpty(b.properties))
    ensures BuildResult(b, id) == Err(MissingProperty(AbsentDependencies(OrEmpty(b.properties), OrEmpty(b.properties))))
  {
    CompleteIffNothingMissing(b);
    MissingDependenciesEmptyIff(b);
  }

  /** Step 3: with fields set and dependencies closed, an unmet style formula
      is reported whole: the `and`-fold of the properties' formulas. */
  lemma BuildReportsStyleFormula(b: BuilderState, id: Uuid)
    requires Complete(b) && DependencyClosed(OrEmpty(b.properties))
    requires !StyleRequirementsMet(b.style, OrEmpty(b.properties))
    ensures b.properties.Some? && FoldFormulas(None, b.properties.value).Some?
    ensures BuildResult(b, id) == Err(MissingStyleDependencies(FoldFormulas(None, b.properties.value).value))
  {
    CompleteIffNothingMissing(b);
    MissingDependenciesEmptyIff(b);
    StyleDependenciesMeaning(b);
  }

  /** Step 4: with everything else in order, a type/style mismatch (possible
      only through the unchecked setters or direct field access) is
      reported. */
  lemma BuildReportsIncompatibleStyle(b: BuilderState, id: Uuid)
    requires Complete(b) && DependencyClosed(OrEmpty(b.properties))
    requires StyleRequirementsMet(b.style, OrEmpty(b.properties))
    requires !CompatibleWithStyle(b.weaponType.value, b.style.value)
    ensures BuildResult(b, id) == Err(IncompatibleStyle(b.style.value, b.weaponType.value))
  {
    CompleteIffNothingMissing(b);
    MissingDependenciesEmptyIff(b);
    StyleDependenciesMeaning(b);
    var ps := OrEmpty(b.properties);
    if StyleDependencies(b).Some? {
      if b.properties.None? {
        assert false;
      }
      assert b.properties == Some(ps);
    }
  }

  // ---------------------------------------------------------------------
  // The builder
  // ---------------------------------------------------------------------

  /** The base range or damage type after a seeding setter: the default only
      when the field was unset. */
  function SeedIfUnset<T>(current: Option<T>, default: Option<T>): (r: Option<T>)
    ensures current.Some? ==> r == current
    ensures current.None? ==> r == default
  {
    if current.None? then default else current
  }

  /** The check `add_property` performs before appending: a duplicate is
      reported before an illegal property. */
  function AdditionError(b: BuilderState, p: WeaponProperty): (e: Option<WeaponBuildError>)
    ensures p in OrEmpty(b.properties) ==> e == Some(DuplicateProperty(p))
    ensures p !in OrEmpty(b.properties) && b.weaponType.Some? && !CompatibleWithProperty(b.weaponType.value, p)
            ==> e == Some(IncompatibleProperty(p, b.weaponType.value))
    ensures e.None? <==> p !in OrEmpty(b.properties) && (b.weaponType.Some? ==> CompatibleWithProperty(b.weaponType.value, p))
  {
    if p in OrEmpty(b.properties) then Some(DuplicateProperty(p))
    else if b.weaponType.Some? && !CompatibleWithProperty(b.weaponType.value, p) then
      Some(IncompatibleProperty(p, b.weaponType.value))
    else None
  }

  /** The state after appending `qs` one by one; appending nothing leaves
      even an unset list unset. */
  function WithAppended(b: BuilderState, qs: seq<WeaponProperty>): BuilderState
  {
    if qs == [] then b else b.(properties := Some(OrEmpty(b.properties) + qs))
  }

  /** `iter().position(|&p| p == property)`: the first index holding `p`. */
  method Position(ps: seq<WeaponProperty>, p: WeaponProperty) returns (index: Option<nat>)
    ensures index.None? <==> p !in ps
    ensures index.Some? ==> index.value < |ps| && ps[index.value] == p && p !in ps[..index.value]
  {
    var i := 0;
    while i < |ps|
      invariant 0 <= i <= |ps|
      invariant p !in ps[..i]
    {
      if ps[i] == p {
        return Some(i);
      }
      assert ps[..i + 1] == ps[..i] + [ps[i]];
      i := i + 1;
    }
    assert ps[..i] == ps;
    return None;
  }

  class WeaponBuilder {
    var weaponType: Option<WeaponType>
    var style: Option<WeaponStyle>
    var damageType: Option<DamageType>
    var properties: Option<seq<WeaponProperty>>
    var baseRange: Option<Range>
    /** Stored, never enforced. */
    var maxPoints: nat

    function State(): BuilderState
      reads this
    {
      BuilderState(weaponType, style, damageType, properties, baseRange, maxPoints)
    }

    /** `WeaponBuilder::new()`: every field unset and a budget of 2. */
    constructor ()
      ensures State() == BuilderState(None, None, None, None, None, 2)
    {
      weaponType, style, damageType, properties, baseRange := None, None, None, None, None;
      maxPoints := 2;
    }

    /** `WeaponBuilder::new_melee()`: melee, with range one space. */
    constructor NewMelee()
      ensures State() == BuilderState(Some(Melee), None, None, None, Some(Spaces(1)), 2)
    {
      weaponType, style, damageType, properties, baseRange := None, None, None, None, None;
      maxPoints := 2;
      new;
      SetWeaponTypeUnchecked(Melee);
    }

    /** `WeaponBuilder::new_ranged()`: ranged, with range five spaces and the
        properties Ammo, TwoHanded and Unwieldy. */
    constructor NewRanged()
      ensures State() == BuilderState(Some(Ranged), None, None, Some([Ammo, TwoHanded, Unwieldy]), Some(Spaces(5)), 2)
    {
      weaponType, style, damageType, properties, baseRange := None, None, None, None, None;
      maxPoints := 2;
      new;
      SetWeaponTypeUnchecked(Ranged);
      AddPropertiesUnchecked([Ammo, TwoHanded, Unwieldy]);
      assert [] + [Ammo, TwoHanded, Unwieldy] == [Ammo, TwoHanded, Unwieldy];
    }

    /** `weapon_type`: refused when a style is set that the type does not
        accept, and then nothing changes; otherwise as the unchecked
        setter. */
    method SetWeaponType(t: WeaponType) returns (r: Result<(), WeaponBuildError>)
      modifies this
      ensures old(style).Some? && !CompatibleWithStyle(t, old(style).value) ==>
        r == Err(IncompatibleStyle(old(style).value, t)) && State() == old(State())
      ensures old(style).None? || CompatibleWithStyle(t, old(style).value) ==>
        r == Ok(()) && State() == old(State()).(weaponType := Some(t), baseRange := SeedIfUnset(old(baseRange), Some(DefaultBaseRange(t))))
    {
      if style.Some? && !CompatibleWithStyle(t, style.value) {
        return Err(IncompatibleStyle(style.value, t));
      }
      SetWeaponTypeUnchecked(t);
      r := Ok(());
    }

    /** `weapon_type_unchecked`: sets the type and seeds its default range
        only when no range is set. */
    method SetWeaponTypeUnchecked(t: WeaponType)
      modifies this
      ensures State() == old(State()).(weaponType := Some(t), baseRange := SeedIfUnset(old(baseRange), Some(DefaultBaseRange(t))))
    {
      if baseRange.None? {
        SetBaseRangeUnchecked(DefaultBaseRange(t));
      }
      weaponType := Some(t);
    }

    /** `base_range`: always accepted, always overwrites. */
    method SetBaseRange(range: Range) returns (r: Result<(), WeaponBuildError>)
      modifies this
      ensures r == Ok(()) && State() == old(State()).(baseRange := Some(range))
    {
      SetBaseRangeUnchecked(range);
      r := Ok(());
    }

    /** `base_range_unchecked`. */
    method SetBaseRangeUnchecked(range: Range)
      modifies this
      ensures State() == old(State()).(baseRange := Some(range))
    {
      baseRange := Some(range);
    }

    /** `style`: refused when a type is set that does not accept the style,
        and then nothing changes; otherwise as the unchecked setter. */
    method SetStyle(s: WeaponStyle) returns (r: Result<(), WeaponBuildError>)
      modifies this
      ensures old(weaponType).Some? && !CompatibleWithStyle(old(weaponType).value, s) ==>
        r == Err(IncompatibleStyle(s, old(weaponType).value)) && State() == old(State())
      ensures old(weaponType).None? || CompatibleWithStyle(old(weaponType).value, s) ==>
        r == Ok(()) && State() == old(State()).(style := Some(s), damageType := SeedIfUnset(old(damageType), DefaultDamageType(s)))
    {
      if weaponType.Some? && !CompatibleWithStyle(weaponType.value, s) {
        return Err(IncompatibleStyle(s, weaponType.value));
      }
      SetStyleUnchecked(s);
      r := Ok(());
    }

    /** `style_unchecked`: sets the style and seeds its default damage type
        only when none is set (Fist has none to seed). */
    method SetStyleUnchecked(s: WeaponStyle)
      modifies this
      ensures State() == old(State()).(style := Some(s), damageType := SeedIfUnset(old(damageType), DefaultDamageType(s)))
    {
      if damageType.None? {
        var d := DefaultDamageType(s);
        if d.Some? {
          SetDamageTypeUnchecked(d.value);
        }
      }
      style := Some(s);
    }

    /** `damage_type`: always accepted, always overwrites. */
    method SetDamageType(d: DamageType) returns (r: Result<(), WeaponBuildError>)
      modifies this
      ensures r == Ok(()) && State() == old(State()).(damageType := Some(d))
    {
      SetDamageTypeUnchecked(d);
      r := Ok(());
    }

    /** `damage_type_unchecked`. */
    method SetDamageTypeUnchecked(d: DamageType)
      modifies this
      ensures State() == old(State()).(damageType := Some(d))
    {
      damageType := Some(d);
    }

    /** `add_property`: a duplicate, then an illegal property, is refused and
        nothing changes; otherwise `p` is appended at the end and nothing
        else changes. */
    method AddProperty(p: WeaponProperty) returns (r: Result<(), WeaponBuildError>)
      modifies this
      ensures AdditionError(old(State()), p).Some? ==>
        r == Err(AdditionError(old(State()), p).value) && State() == old(State())
      ensures AdditionError(old(State()), p).None? ==>
        r == Ok(()) && State() == WithAppended(old(State()), [p])
    {
      if properties.Some? && p in properties.value {
        return Err(DuplicateProperty(p));
      }
      if weaponType.Some? && !CompatibleWithProperty(weaponType.value, p) {
        return Err(IncompatibleProperty(p, weaponType.value));
      }
      AddPropertyUnchecked(p);
      r := Ok(());
    }

    /** `add_property_unchecked`: appends, creating the list if needed. */
    method AddPropertyUnchecked(p: WeaponProperty)
      modifies this
      ensures State() == WithAppended(old(State()), [p])
    {
      properties := Some(OrEmpty(properties) + [p]);
    }

    /** `add_properties`: adds in order and stops at the first refusal,
        keeping the additions made before it. */
    method AddProperties(ps: seq<WeaponProperty>) returns (r: Result<(), WeaponBuildError>)
      modifies this
      ensures r.Ok? ==> State() == WithAppended(old(State()), ps)
                        && forall j | 0 <= j < |ps| :: AdditionError(WithAppended(old(State()), ps[..j]), ps[j]).None?
      ensures r.Err? ==> exists k | 0 <= k < |ps| ::
        && (forall j | 0 <= j < k :: AdditionError(WithAppended(old(State()), ps[..j]), ps[j]).None?)
        && AdditionError(WithAppended(old(State()), ps[..k]), ps[k]) == Some(r.error)
        && State() == WithAppended(old(State()), ps[..k])
    {
      var i := 0;
      while i < |ps|
        invariant 0 <= i <= |ps|
        invariant State() == WithAppended(old(State()), ps[..i])
        invariant forall j | 0 <= j < i :: AdditionError(WithAppended(old(State()), ps[..j]), ps[j]).None?
      {
        r := AddProperty(ps[i]);
        if r.Err? {
          return;
        }
        AppendOneMore(old(State()), ps, i);
        i := i + 1;
      }
      assert ps[..i] == ps;
      r := Ok(());
    }

    /** `add_properties_unchecked`: appends every property in order. */
    method AddPropertiesUnchecked(ps: seq<WeaponProperty>)
      modifies this
      ensures State() == WithAppended(old(State()), ps)
    {
      var i := 0;
      while i < |ps|
        invariant 0 <= i <= |ps|
        invariant State() == WithAppended(old(State()), ps[..i])
      {
        AddPropertyUnchecked(ps[i]);
        AppendOneMore(old(State()), ps, i);
        i := i + 1;
      }
      assert ps[..i] == ps;
    }

    /** `remove_property`: refused with `MissingField(["properties"])` when
        the list was never created and with `MissingProperty([p])` when `p`
        is absent; otherwise the first occurrence of `p` is removed and the
        rest keeps its order. */
    method RemoveProperty(p: WeaponProperty) returns (r: Result<(), WeaponBuildError>)
      modifies this
      ensures old(properties).None? ==>
        r == Err(MissingField(["properties"])) && State() == old(State())
      ensures old(properties).Some? && p !in old(properties).value ==>
        r == Err(MissingProperty([p])) && State() == old(State())
      ensures old(properties).Some? && p in old(properties).value ==>
        && r == Ok(())
        && (exists i | 0 <= i < |old(properties).value| ::
              && old(properties).value[i] == p
              && p !in old(properties).value[..i]
              && State() == old(State()).(properties := Some(old(properties).value[..i] + old(properties).value[i + 1..])))
        && multiset(OrEmpty(properties)) == multiset(old(properties).value) - multiset{p}
    {
      if properties.None? {
        return Err(MissingField(["properties"]));
      }
      var ps := properties.value;
      var index := Position(ps, p);
      if index.None? {
        return Err(MissingProperty([p]));
      }
      var i := index.value;
      properties := Some(ps[..i] + ps[i + 1..]);
      assert ps == ps[..i] + [p] + ps[i + 1..];
      r := Ok(());
    }

    /** `build`: the builder is only read. The fields are checked through a
        `FieldAggregator`, then dependencies, style formulas and type/style
        agreement, in that order; the identifier is supplied by the
        caller. */
    method Build(id: Uuid) returns (r: Result<Weapon, WeaponBuildError>)
      ensures r == BuildResult(State(), id)
    {
      var fa := new FieldAggregator();
      fa.FieldCheck(weaponType, "weapon_type");
      fa.FieldCheck(style, "style");
      fa.FieldCheck(damageType, "damage_type");
      fa.FieldCheck(baseRange, "base_range");
      assert fa.checks == RequiredChecks(State());
      RunIsMissing(fa.checks);
      var missing := Swap(ErrorFromAggregator(fa.fields));
      if missing.Err? {
        return Err(missing.error);
      }
      CompleteIffNothingMissing(State());

      var missingDeps := MissingDependencyProperties(State());
      if missingDeps != [] {
        return Err(MissingProperty(missingDeps));
      }

      var t := weaponType.value;
      var s := style.value;

      var formula := StyleDependencies(State());
      if formula.Some? && !MeetsStyle(style, properties, formula.value) {
        return Err(MissingStyleDependencies(formula.value));
      }

      if CompatibleWithStyle(t, s) {
        r := Ok(Weapon(id, t, s, damageType.value, OrEmpty(properties), baseRange.value));
      } else {
        r := Err(IncompatibleStyle(s, t));
      }
    }
  }

  /** Appending one more property to a prefix gives the next prefix. */
  lemma AppendOneMore(b: BuilderState, ps: seq<WeaponProperty>, i: nat)
    requires i < |ps|
    ensures WithAppended(WithAppended(b, ps[..i]), [ps[i]]) == WithAppended(b, ps[..i + 1])
  {
    assert ps[..i + 1] == ps[..i] + [ps[i]];
    if i > 0 {
      assert OrEmpty(Some(OrEmpty(b.properties) + ps[..i])) + [ps[i]] == OrEmpty(b.properties) + ps[..i + 1];
    } else {
      assert ps[..i] == [];
      assert ps[..i + 1] == [ps[i]];
      assert OrEmpty(b.properties) + [] == OrEmpty(b.properties);
    }
  }
}
