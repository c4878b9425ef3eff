/** Ancestries and origins of `src/dc20/ancestry.rs`: the origin point-budget
    validator (`OriginBuilder` into `Origin`) and the ancestry-trait selection
    (`AncestryInstanceBuilder` into `AncestryInstance`). Both builders are
    consumed and returned by value, so they are values here. Trait costs are
    signed (`isize`) and modelled as unbounded integers. */
module Ancestry {
  import opened Utils

  datatype AncestryTrait = AncestryTrait(uuid: Uuid, name: string, cost: int, description: string)

  datatype AncestryInstance = AncestryInstance(uuid: Uuid, name: string, traits: seq<AncestryTrait>)

  datatype AncestryEntry = AncestryEntry(uuid: Uuid, name: string, description: string, availableTraits: seq<AncestryTrait>)

  // ---------------------------------------------------------------------
  // Points and zero-point traits
  // ---------------------------------------------------------------------

  /** Sum of the costs of `ts` (`AncestryInstance::total_trait_points`):
      with no negative cost the sum is non-negative. */
  function TraitPoints(ts: seq<AncestryTrait>): (r: int)
    ensures ts == [] ==> r == 0
    ensures (forall t | t in ts :: t.cost >= 0) ==> r >= 0
  {
    if ts == [] then 0 else TraitPoints(ts[..|ts| - 1]) + ts[|ts| - 1].cost
  }

  /** The traits of `ts` that cost nothing, in order
      (`AncestryInstance::zero_point_traits`). */
  function ZeroPointTraits(ts: seq<AncestryTrait>): (r: seq<AncestryTrait>)
    ensures |r| <= |ts|
    ensures forall t | t in r :: t in ts && t.cost == 0
    ensures forall i | 0 <= i < |ts| && ts[i].cost == 0 :: ts[i] in r
  {
    if ts == [] then [] else ZeroPointTraits(ts[..|ts| - 1]) + (if ts[|ts| - 1].cost == 0 then [ts[|ts| - 1]] else [])
  }

  lemma {:induction false} TraitPointsConcat(a: seq<AncestryTrait>, b: seq<AncestryTrait>)
    ensures TraitPoints(a + b) == TraitPoints(a) + TraitPoints(b)
    ensures |ZeroPointTraits(a + b)| == |ZeroPointTraits(a)| + |ZeroPointTraits(b)|
    decreases |b|
  {
    if b == [] {
      assert a + b == a;
    } else {
      var b' := b[..|b| - 1];
      assert a + b == (a + b') + [b[|b| - 1]];
      assert (a + b)[..|a + b| - 1] == a + b';
      TraitPointsConcat(a, b');
    }
  }

  /** The traits of every ancestry, in order. */
  function AllTraits(ancestries: seq<AncestryInstance>): seq<AncestryTrait>
  {
    if ancestries == [] then [] else AllTraits(ancestries[..|ancestries| - 1]) + ancestries[|ancestries| - 1].traits
  }

  // ---------------------------------------------------------------------
  // OriginBuilder
  // ---------------------------------------------------------------------

  datatype OriginBuilder = OriginBuilder(availablePoints: int, ancestries: Option<seq<AncestryInstance>>)

  datatype AddAncestryError = DuplicateAncestry(name: string)

  datatype Origin =
    | PureBred(only: AncestryInstance)
    | HybridBred(first: AncestryInstance, second: AncestryInstance)
    | CustomOrigin(all: seq<AncestryInstance>)

  datatype OriginBuildError =
    | AncestryMissing
    | PointsExceeded
    | PointsRemaining
    | ZeroPointTraitMissing
    | MultipleZeroPointTraits

  /** `OriginBuilder::new()`: five points to spend, no ancestry yet. */
  function NewOrigin(): (b: OriginBuilder)
    ensures b.availablePoints == 5 && b.ancestries.None?
  {
    OriginBuilder(5, None)
  }

  /** `with_ancestry`: an ancestry equal (in every field) to one already
      added is refused with its name; otherwise it is appended, creating the
      list if needed. */
  function WithAncestry(b: OriginBuilder, a: AncestryInstance): (r: Result<OriginBuilder, AddAncestryError>)
    ensures a in OrEmpty(b.ancestries) <==> r.Err?
    ensures r.Err? ==> r.error == DuplicateAncestry(a.name)
    ensures r.Ok? ==> r.value == b.(ancestries := Some(OrEmpty(b.ancestries) + [a]))
  {
    if b.ancestries.Some? && a in b.ancestries.value then Err(DuplicateAncestry(a.name))
    else Ok(b.(ancestries := Some(OrEmpty(b.ancestries) + [a])))
  }

  /** `total_trait_points`: the sum over all ancestries, 0 with none. */
  function TotalTraitPoints(b: OriginBuilder): (r: int)
    ensures b.ancestries.None? ==> r == 0
    ensures r == TraitPoints(AllTraits(OrEmpty(b.ancestries)))
  {
    TotalsOverAllTraits(OrEmpty(b.ancestries));
    TotalPointsOf(OrEmpty(b.ancestries))
  }

  function TotalPointsOf(ancestries: seq<AncestryInstance>): int
  {
    if ancestries == [] then 0
    else TotalPointsOf(ancestries[..|ancestries| - 1]) + TraitPoints(ancestries[|ancestries| - 1].traits)
  }

  /** `zero_point_trait_count`: the fold over all ancestries, 0 with none. */
  function ZeroPointTraitCount(b: OriginBuilder): (r: nat)
    ensures b.ancestries.None? ==> r == 0
    ensures r == |ZeroPointTraits(AllTraits(OrEmpty(b.ancestries)))|
  {
    TotalsOverAllTraits(OrEmpty(b.ancestries));
    ZeroCountOf(OrEmpty(b.ancestries))
  }

  function ZeroCountOf(ancestries: seq<AncestryInstance>): nat
  {
    if ancestries == [] then 0
    else ZeroCountOf(ancestries[..|ancestries| - 1]) + |ZeroPointTraits(ancestries[|ancestries| - 1].traits)|
  }

  /** The two per-ancestry totals are the totals over all traits of all
      ancestries: the points are the sum of every trait cost, the count the
      number of zero-cost traits. */
  lemma {:induction false} TotalsOverAllTraits(ancestries: seq<AncestryInstance>)
    ensures TotalPointsOf(ancestries) == TraitPoints(AllTraits(ancestries))
    ensures ZeroCountOf(ancestries) == |ZeroPointTraits(AllTraits(ancestries))|
  {
    if ancestries != [] {
      var init := ancestries[..|ancestries| - 1];
      TotalsOverAllTraits(init);
      TraitPointsConcat(AllTraits(init), ancestries[|ancestries| - 1].traits);
    }
  }

  /** Adding an ancestry adds its points and its zero-point traits to the
      totals. */
  lemma WithAncestryTotals(b: OriginBuilder, a: AncestryInstance)
    requires WithAncestry(b, a).Ok?
    ensures TotalTraitPoints(WithAncestry(b, a).value) == TotalTraitPoints(b) + TraitPoints(a.traits)
    ensures ZeroPointTraitCount(WithAncestry(b, a).value) == ZeroPointTraitCount(b) + |ZeroPointTraits(a.traits)|
  {
    var s := OrEmpty(b.ancestries) + [a];
    assert s[..|s| - 1] == OrEmpty(b.ancestries);
  }

  /** `TryFrom<OriginBuilder> for Origin`: no ancestry list, then points over
      and under the budget, then the zero-point trait count, are refused in
      that order; the number of ancestries then picks the variant. */
  function BuildOrigin(b: OriginBuilder): (r: Result<Origin, OriginBuildError>)
    ensures r.Ok? ==> b.ancestries.Some? && TotalTraitPoints(b) == b.availablePoints && ZeroPointTraitCount(b) == 1
    ensures r == Err(PointsExceeded) <==> b.ancestries.Some? && TotalTraitPoints(b) > b.availablePoints
    ensures r == Err(PointsRemaining) <==> b.ancestries.Some? && TotalTraitPoints(b) < b.availablePoints
    ensures r == Err(AncestryMissing) <==> b.ancestries.None?
    ensures r == Err(ZeroPointTraitMissing) <==>
      b.ancestries.Some? && TotalTraitPoints(b) == b.availablePoints && ZeroPointTraitCount(b) == 0
    ensures r == Err(MultipleZeroPointTraits) <==>
      b.ancestries.Some? && TotalTraitPoints(b) == b.availablePoints && ZeroPointTraitCount(b) > 1
  {
    if b.ancestries.None? then Err(AncestryMissing)
    else if TotalTraitPoints(b) > b.availablePoints then Err(PointsExceeded)
    else if TotalTraitPoints(b) < b.availablePoints then Err(PointsRemaining)
    else if ZeroPointTraitCount(b) == 0 then Err(ZeroPointTraitMissing)
    else if ZeroPointTraitCount(b) > 1 then Err(MultipleZeroPointTraits)
    else
      var ancestries := b.ancestries.value;
      if |ancestries| == 0 then Err(AncestryMissing)
      else if |ancestries| == 1 then Ok(PureBred(ancestries[0]))
      else if |ancestries| == 2 then Ok(HybridBred(ancestries[0], ancestries[1]))
      else Ok(CustomOrigin(ancestries))
  }

  /** An origin is built exactly when an ancestry list exists, every point of
      the budget is spent, and exactly one trait in total costs nothing; one
      ancestry gives `PureBred`, two give `HybridBred` in order, more give
      `CustomOrigin` with the list unchanged. */
  lemma BuildOriginSucceedsIff(b: OriginBuilder)
    ensures BuildOrigin(b).Ok? <==>
      b.ancestries.Some? && TotalTraitPoints(b) == b.availablePoints && ZeroPointTraitCount(b) == 1
    ensures BuildOrigin(b).Ok? ==>
      var a := b.ancestries.value;
      && |a| >= 1
      && (|a| == 1 ==> BuildOrigin(b) == Ok(PureBred(a[0])))
      && (|a| == 2 ==> BuildOrigin(b) == Ok(HybridBred(a[0], a[1])))
      && (|a| >= 3 ==> BuildOrigin(b) == Ok(CustomOrigin(a)))
  {
    if b.ancestries.Some? && b.ancestries.value == [] {
      assert ZeroPointTraitCount(b) == 0;
    }
  }

  /** With the list present but empty, the count arm is never reached: the
      empty list is refused for its points or its missing zero-point
      trait. */
  lemma EmptyListRefusedEarlier(b: OriginBuilder)
    requires b.ancestries == Some([])
    ensures BuildOrigin(b) == (if 0 > b.availablePoints then Err(PointsExceeded)
                               else if 0 < b.availablePoints then Err(PointsRemaining)
                               else Err(ZeroPointTraitMissing))
  {
    assert TotalTraitPoints(b) == 0;
    assert ZeroPointTraitCount(b) == 0;
  }

  // ---------------------------------------------------------------------
  // AncestryInstance
  // ---------------------------------------------------------------------

  datatype AddAncestryTraitError = TraitNotAvailable(name: string) | DuplicateTrait(name: string)

  datatype InstanceBuildError = MissingTraits

  /** `AncestryInstance::add_ancestry_trait` (and `with_trait`): always
      accepted, always appended. The source updates the instance in place. */
  function AddTrait(a: AncestryInstance, t: AncestryTrait): (r: Result<AncestryInstance, AddAncestryTraitError>)
    ensures r.Ok? && r.value == a.(traits := a.traits + [t])
  {
    Ok(a.(traits := a.traits + [t]))
  }

  /** Appending a trait adds its cost to the instance's points, and counts
      it among the zero-point traits exactly when it is free. */
  lemma AddTraitTotals(a: AncestryInstance, t: AncestryTrait)
    ensures TraitPoints(AddTrait(a, t).value.traits) == TraitPoints(a.traits) + t.cost
    ensures |ZeroPointTraits(AddTrait(a, t).value.traits)| == |ZeroPointTraits(a.traits)| + (if t.cost == 0 then 1 else 0)
  {
    var s := a.traits + [t];
    assert s[..|s| - 1] == a.traits;
  }

  datatype AncestryInstanceBuilder = AncestryInstanceBuilder(entry: AncestryEntry, selectedTraits: Option<seq<AncestryTrait>>)

  /** `From<AncestryEntry>`: nothing selected yet. */
  function FromEntry(e: AncestryEntry): (b: AncestryInstanceBuilder)
    ensures b.entry == e && b.selectedTraits.None?
  {
    AncestryInstanceBuilder(e, None)
  }

  /** `AncestryInstanceBuilder::add_ancestry_trait`: a trait the entry does
      not offer is refused first, then a trait already selected; otherwise it
      is appended. Refusals name the trait. */
  function AddAncestryTrait(b: AncestryInstanceBuilder, t: AncestryTrait): (r: Result<AncestryInstanceBuilder, AddAncestryTraitError>)
    ensures t !in b.entry.availableTraits ==> r == Err(TraitNotAvailable(t.name))
    ensures t in b.entry.availableTraits && t in OrEmpty(b.selectedTraits) ==> r == Err(DuplicateTrait(t.name))
    ensures r.Ok? <==> t in b.entry.availableTraits && t !in OrEmpty(b.selectedTraits)
    ensures r.Ok? ==> r.value == b.(selectedTraits := Some(OrEmpty(b.selectedTraits) + [t]))
  {
    if t !in b.entry.availableTraits then Err(TraitNotAvailable(t.name))
    else if b.selectedTraits.Some? && t in b.selectedTraits.value then Err(DuplicateTrait(t.name))
    else Ok(b.(selectedTraits := Some(OrEmpty(b.selectedTraits) + [t])))
  }

  /** The selection a builder can reach: when present, non-empty, drawn from
      the entry, and free of duplicates. */
  ghost predicate ValidSelection(b: AncestryInstanceBuilder)
  {
    b.selectedTraits.Some? ==>
      && |b.selectedTraits.value| > 0
      && (forall t | t in b.selectedTraits.value :: t in b.entry.availableTraits)
      && (forall i, j | 0 <= i < j < |b.selectedTraits.value| :: b.selectedTraits.value[i] != b.selectedTraits.value[j])
  }

  /** A fresh builder has a valid selection, and adding a trait keeps it
      valid. */
  lemma AddAncestryTraitKeepsValid(e: AncestryEntry, b: AncestryInstanceBuilder, t: AncestryTrait)
    requires ValidSelection(b)
    ensures ValidSelection(FromEntry(e))
    ensures AddAncestryTrait(b, t).Ok? ==> ValidSelection(AddAncestryTrait(b, t).value)
  {
    if AddAncestryTrait(b, t).Ok? {
      var old_ := OrEmpty(b.selectedTraits);
      var s := old_ + [t];
      forall i, j | 0 <= i < j < |s|
        ensures s[i] != s[j]
      {
        if j == |s| - 1 {
          assert s[i] == old_[i];
        } else {
          assert s[i] == old_[i] && s[j] == old_[j];
        }
      }
    }
  }

  /** `TryFrom<AncestryInstanceBuilder> for AncestryInstance`: fails exactly
      when nothing was selected; otherwise keeps the entry's name and the
      selection, and takes the given identifier. */
  function BuildInstance(b: AncestryInstanceBuilder, id: Uuid): (r: Result<AncestryInstance, InstanceBuildError>)
    ensures r.Err? <==> b.selectedTraits.None?
    ensures r.Err? ==> r.error == MissingTraits
    ensures r.Ok? ==> r.value == AncestryInstance(id, b.entry.name, b.selectedTraits.value)
  {
    if b.selectedTraits.Some? then Ok(AncestryInstance(id, b.entry.name, b.selectedTraits.value))
    else Err(MissingTraits)
  }

  /** From a valid selection, a built instance holds at least one trait, only
      traits the entry offers, and no trait twice. */
  lemma BuiltInstanceIsValid(b: AncestryInstanceBuilder, id: Uuid)
    requires ValidSelection(b) && BuildInstance(b, id).Ok?
    ensures var ts := BuildInstance(b, id).value.traits;
      && |ts| > 0
      && (forall t | t in ts :: t in b.entry.availableTraits)
      && (forall i, j | 0 <= i < j < |ts| :: ts[i] != ts[j])
  {
  }

  // ---------------------------------------------------------------------
  // The crate's tests
  // ---------------------------------------------------------------------

  /** Adding the same instance twice is refused with its name. */
  lemma DuplicateAncestryExample(a: AncestryInstance)
    ensures WithAncestry(NewOrigin(), a).Ok?
    ensures WithAncestry(WithAncestry(NewOrigin(), a).value, a) == Err(DuplicateAncestry(a.name))
  {
  }

  /** The ancestries of the crate's origin test; every trait and ancestry
      takes the default identifier `id` and empty names. */
  function TestAncestry(id: Uuid, k: nat): (a: AncestryInstance)
    requires k < 3
    ensures a.uuid == id && a.name == ""
  {
    if k == 0 then AncestryInstance(id, "", [AncestryTrait(id, "", 5, ""), AncestryTrait(id, "", 0, "")])
    else AncestryInstance(id, "", [AncestryTrait(id, "", k, "")])
  }

  /** The crate's origin test, first two steps: a fresh builder has no
      ancestry, and adding a 5+0 point ancestry gives `PureBred`. */
  lemma OriginPureBredExample(id: Uuid)
    ensures BuildOrigin(NewOrigin()) == Err(AncestryMissing)
    ensures WithAncestry(NewOrigin(), TestAncestry(id, 0)) == Ok(OriginBuilder(5, Some([TestAncestry(id, 0)])))
    ensures BuildOrigin(OriginBuilder(5, Some([TestAncestry(id, 0)]))).Ok?
    ensures BuildOrigin(OriginBuilder(5, Some([TestAncestry(id, 0)]))).value.PureBred?
  {
    var a0 := TestAncestry(id, 0);
    var t0 := a0.traits[0];
    assert OrEmpty(NewOrigin().ancestries) + [a0] == [a0];
    assert a0.traits[..1] == [t0];
    assert [t0][..0] == [];
    assert TraitPoints([t0]) == 5 && |ZeroPointTraits([t0])| == 0;
    assert TraitPoints(a0.traits) == 5 && |ZeroPointTraits(a0.traits)| == 1;
    assert [a0][..0] == [];
    assert TotalPointsOf([a0]) == 5 && ZeroCountOf([a0]) == 1;
  }

  /** Third step: adding a 1-point ancestry and raising the budget to 6
      gives `HybridBred`. */
  lemma OriginHybridExample(id: Uuid)
    ensures WithAncestry(OriginBuilder(5, Some([TestAncestry(id, 0)])), TestAncestry(id, 1))
            == Ok(OriginBuilder(5, Some([TestAncestry(id, 0), TestAncestry(id, 1)])))
    ensures BuildOrigin(OriginBuilder(6, Some([TestAncestry(id, 0), TestAncestry(id, 1)]))).Ok?
    ensures BuildOrigin(OriginBuilder(6, Some([TestAncestry(id, 0), TestAncestry(id, 1)]))).value.HybridBred?
  {
    var a0 := TestAncestry(id, 0);
    var a1 := TestAncestry(id, 1);
    assert a1 !in [a0] by { assert |a1.traits| != |a0.traits|; }
    assert [a0] + [a1] == [a0, a1];
    OriginPureBredExample(id);
    assert a1.traits[..0] == [];
    assert TraitPoints(a1.traits) == 1 && |ZeroPointTraits(a1.traits)| == 0;
    assert [a0, a1][..1] == [a0];
    assert TotalPointsOf([a0, a1]) == 6 && ZeroCountOf([a0, a1]) == 1;
  }

  /** Last step: adding a 2-point ancestry and raising the budget to 8
      gives `CustomOrigin`. */
  lemma OriginCustomExample(id: Uuid)
    ensures WithAncestry(OriginBuilder(6, Some([TestAncestry(id, 0), TestAncestry(id, 1)])), TestAncestry(id, 2))
            == Ok(OriginBuilder(6, Some([TestAncestry(id, 0), TestAncestry(id, 1), TestAncestry(id, 2)])))
    ensures BuildOrigin(OriginBuilder(8, Some([TestAncestry(id, 0), TestAncestry(id, 1), TestAncestry(id, 2)]))).Ok?
    ensures BuildOrigin(OriginBuilder(8, Some([TestAncestry(id, 0), TestAncestry(id, 1), TestAncestry(id, 2)]))).value.CustomOrigin?
  {
    var a0 := TestAncestry(id, 0);
    var a1 := TestAncestry(id, 1);
    var a2 := TestAncestry(id, 2);
    assert a2 !in [a0, a1] by {
      assert |a2.traits| != |a0.traits|;
      assert a2.traits[0].cost != a1.traits[0].cost;
    }
    assert [a0, a1] + [a2] == [a0, a1, a2];
    OriginHybridExample(id);
    assert a2.traits[..0] == [];
    assert TraitPoints(a2.traits) == 2 && |ZeroPointTraits(a2.traits)| == 0;
    assert [a0, a1, a2][..2] == [a0, a1];
    assert TotalPointsOf([a0, a1, a2]) == 8 && ZeroCountOf([a0, a1, a2]) == 1;
  }
}
