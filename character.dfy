/** Level and defense arithmetic of `src/dc20/character.rs`. */
module CharacterStats {

  /** `Level(usize)`. */
  datatype Level = Level(value: nat)

  /** `Level::default()`: level 1. */
  function DefaultLevel(): (l: Level)
    ensures l.value == 1
  {
    Level(1)
  }

  /** `calc_combat_mastery`: half the level, rounded up. */
  function CombatMastery(l: Level): (m: nat)
    ensures 2 * m == l.value || 2 * m == l.value + 1
  {
    (l.value + 1) / 2
  }

  /** Combat mastery never decreases as the level grows, and rises by one
      every two levels. */
  lemma CombatMasteryGrowth(a: Level, b: Level)
    ensures a.value <= b.value ==> CombatMastery(a) <= CombatMastery(b)
    ensures CombatMastery(Level(a.value + 2)) == CombatMastery(a) + 1
  {
  }

  /** The table the crate's test spells out, levels 1 to 20. */
  lemma CombatMasteryTable()
    ensures CombatMastery(Level(1)) == 1 && CombatMastery(Level(2)) == 1
    ensures CombatMastery(Level(3)) == 2 && CombatMastery(Level(4)) == 2
    ensures CombatMastery(Level(5)) == 3 && CombatMastery(Level(6)) == 3
    ensures CombatMastery(Level(7)) == 4 && CombatMastery(Level(8)) == 4
    ensures CombatMastery(Level(9)) == 5 && CombatMastery(Level(10)) == 5
    ensures CombatMastery(Level(11)) == 6 && CombatMastery(Level(12)) == 6
    ensures CombatMastery(Level(13)) == 7 && CombatMastery(Level(14)) == 7
    ensures CombatMastery(Level(15)) == 8 && CombatMastery(Level(16)) == 8
    ensures CombatMastery(Level(17)) == 9 && CombatMastery(Level(18)) == 9
    ensures CombatMastery(Level(19)) == 10 && CombatMastery(Level(20)) == 10
  {
  }

  /** A defense: a name, a score and a damage reduction (`usize`). */
  datatype Defense = Defense(name: string, score: nat, reduction: nat)

  /** `Defense::heavy`: the threshold of a heavy hit. */
  function Heavy(d: Defense): (h: nat)
    ensures h == d.score + 5
  {
    d.score + 5
  }

  /** `Defense::brutal`: the threshold of a brutal hit. */
  function Brutal(d: Defense): (b: nat)
    ensures b == d.score + 10
  {
    d.score + 10
  }

  /** The thresholds are ordered: score < heavy < brutal, five apart. */
  lemma ThresholdsOrdered(d: Defense)
    ensures d.score < Heavy(d) < Brutal(d)
    ensures Brutal(d) - Heavy(d) == Heavy(d) - d.score == 5
  {
  }
}

/** `CharacterBuilder` of `src/dc20/character.rs`: by-value setters, and the
    `TryFrom` that checks eight required fields. */
module Character {
  import opened Utils
  import opened FieldAggregation
  import opened Records
  import opened CharacterStats
  import Attribute
  import Ancestry
  import BackgroundBuilder

  /** The class entry the builder stores. */
  type ClassEntry = Class

  datatype CharacterBuilder = CharacterBuilder(
    playerName: Option<string>,
    characterName: Option<string>,
    classEntry: Option<ClassEntry>,
    ancestry: Option<Ancestry.Origin>,
    background: Option<BackgroundBuilder.Background>,
    level: Level,
    attributes: Option<Attribute.Attributes>,
    physicalDefense: Option<Defense>,
    mysticalDefense: Option<Defense>)

  datatype Character = Character(
    id: Uuid,
    playerName: string,
    characterName: string,
    classEntry: ClassEntry,
    ancestry: Ancestry.Origin,
    background: BackgroundBuilder.Background,
    level: Level,
    attributes: Attribute.Attributes,
    physicalDefense: Defense,
    mysticalDefense: Defense)

  datatype CharacterBuildError = FieldMissing(fields: seq<string>)

  /** `TryFrom<FieldAggregator> for CharacterBuildError`. */
  function ErrorFromAggregator(fields: Option<seq<string>>): (r: Result<CharacterBuildError, ()>)
    ensures r.Ok? <==> fields.Some?
    ensures r.Ok? ==> r.value == FieldMissing(fields.value)
  {
    match fields
    case Some(names) => Ok(FieldMissing(names))
    case None => Err(())
  }

  /** `CharacterBuilder::new()`: nothing set, level 1. */
  function NewBuilder(): (b: CharacterBuilder)
    ensures b.playerName.None? && b.characterName.None? && b.classEntry.None? && b.ancestry.None?
    ensures b.background.None? && b.attributes.None? && b.physicalDefense.None? && b.mysticalDefense.None?
    ensures b.level == DefaultLevel()
  {
    CharacterBuilder(None, None, None, None, None, DefaultLevel(), None, None, None)
  }

  /** `player_name`: the empty string leaves the builder as it was; any other
      name overwrites. */
  function PlayerName(b: CharacterBuilder, name: string): (r: CharacterBuilder)
    ensures name == [] ==> r == b
    ensures name != [] ==> r == b.(playerName := Some(name))
  {
    if name == [] then b else b.(playerName := Some(name))
  }

  /** `character_name`: as `player_name`. */
  function CharacterName(b: CharacterBuilder, name: string): (r: CharacterBuilder)
    ensures name == [] ==> r == b
    ensures name != [] ==> r == b.(characterName := Some(name))
  {
    if name == [] then b else b.(characterName := Some(name))
  }

  /** `class`: sets the class and nothing else, so only the "Class" check turns present. */
  function WithClass(b: CharacterBuilder, c: ClassEntry): (r: CharacterBuilder)
    ensures r.classEntry == Some(c) && r.(classEntry := b.classEntry) == b
    ensures RequiredChecks(r) == RequiredChecks(b)[2 := Check(true, "Class")]
  {
    b.(classEntry := Some(c))
  }

  /** `origin`: sets the ancestry and nothing else, so only the "Ancestry" check turns present. */
  function WithOrigin(b: CharacterBuilder, o: Ancestry.Origin): (r: CharacterBuilder)
    ensures r.ancestry == Some(o) && r.(ancestry := b.ancestry) == b
    ensures RequiredChecks(r) == RequiredChecks(b)[3 := Check(true, "Ancestry")]
  {
    b.(ancestry := Some(o))
  }

  /** `background`: sets the background and nothing else. */
  function WithBackground(b: CharacterBuilder, g: BackgroundBuilder.Background): (r: CharacterBuilder)
    ensures r.background == Some(g) && r.(background := b.background) == b
    ensures RequiredChecks(r) == RequiredChecks(b)[4 := Check(true, "Background")]
  {
    b.(background := Some(g))
  }

  /** `attributes`: sets the attributes and nothing else. */
  function WithAttributes(b: CharacterBuilder, a: Attribute.Attributes): (r: CharacterBuilder)
    ensures r.attributes == Some(a) && r.(attributes := b.attributes) == b
    ensures RequiredChecks(r) == RequiredChecks(b)[5 := Check(true, "Attributes")]
  {
    b.(attributes := Some(a))
  }

  /** `physical_defense`: sets that defense and nothing else. */
  function WithPhysicalDefense(b: CharacterBuilder, d: Defense): (r: CharacterBuilder)
    ensures r.physicalDefense == Some(d) && r.(physicalDefense := b.physicalDefense) == b
    ensures RequiredChecks(r) == RequiredChecks(b)[6 := Check(true, "Physical Defense")]
  {
    b.(physicalDefense := Some(d))
  }

  /** `mystical_defense`: sets that defense and nothing else. */
  function WithMysticalDefense(b: CharacterBuilder, d: Defense): (r: CharacterBuilder)
    ensures r.mysticalDefense == Some(d) && r.(mysticalDefense := b.mysticalDefense) == b
    ensures RequiredChecks(r) == RequiredChecks(b)[7 := Check(true, "Mystical Defense")]
  {
    b.(mysticalDefense := Some(d))
  }

  /** The eight presence checks of `TryFrom`, in their order. */
  function RequiredChecks(b: CharacterBuilder): seq<Check>
  {
    [ Check(b.playerName.Some?, "Player Name"),
      Check(b.characterName.Some?, "Character Name"),
      Check(b.classEntry.Some?, "Class"),
      Check(b.ancestry.Some?, "Ancestry"),
      Check(b.background.Some?, "Background"),
      Check(b.attributes.Some?, "Attributes"),
      Check(b.physicalDefense.Some?, "Physical Defense"),
      Check(b.mysticalDefense.Some?, "Mystical Defense") ]
  }

  predicate Complete(b: CharacterBuilder)
  {
    && b.playerName.Some? && b.characterName.Some? && b.classEntry.Some? && b.ancestry.Some?
    && b.background.Some? && b.attributes.Some? && b.physicalDefense.Some? && b.mysticalDefense.Some?
  }

  /** What `TryFrom` returns for the builder `b`, given the identifier: a
      character exactly when all eight fields are set, carrying the
      identifier and the builder's level; otherwise between one and eight
      field names. */
  function BuildCharacter(b: CharacterBuilder, id: Uuid): (r: Result<Character, CharacterBuildError>)
    ensures r.Ok? <==> Complete(b)
    ensures r.Ok? ==> r.value.id == id && r.value.level == b.level
    ensures r.Err? ==> 1 <= |r.error.fields| <= 8
  {
    CompleteIffNothingMissing(b);
    var missing := Missing(RequiredChecks(b));
    if missing != [] then Err(FieldMissing(missing))
    else
      Ok(Character(id, b.playerName.value, b.characterName.value, b.classEntry.value, b.ancestry.value,
                   b.background.value, b.level, b.attributes.value, b.physicalDefense.value, b.mysticalDefense.value))
  }

  lemma CompleteIffNothingMissing(b: CharacterBuilder)
    ensures Missing(RequiredChecks(b)) == [] <==> Complete(b)
  {
    var cs := RequiredChecks(b);
    MissingMeaning(cs);
    assert cs[0].present == b.playerName.Some?;
    assert cs[1].present == b.characterName.Some?;
    assert cs[2].present == b.classEntry.Some?;
    assert cs[3].present == b.ancestry.Some?;
    assert cs[4].present == b.background.Some?;
    assert cs[5].present == b.attributes.Some?;
    assert cs[6].present == b.physicalDefense.Some?;
    assert cs[7].present == b.mysticalDefense.Some?;
  }

  /** A character is built exactly when all eight fields are set, and it then
      copies every field, the level included. Otherwise the error names
      exactly the unset fields (in the check order, by construction of
      `Missing`). */
  lemma BuildCharacterOutcomes(b: CharacterBuilder, id: Uuid)
    ensures BuildCharacter(b, id).Ok? <==> Complete(b)
    ensures BuildCharacter(b, id).Ok? ==>
      BuildCharacter(b, id).value == Character(id, b.playerName.value, b.characterName.value, b.classEntry.value, b.ancestry.value,
                                               b.background.value, b.level, b.attributes.value, b.physicalDefense.value, b.mysticalDefense.value)
    ensures BuildCharacter(b, id).Err? ==>
      && BuildCharacter(b, id).error.fields == Missing(RequiredChecks(b))
      && (forall k | 0 <= k < 8 && !RequiredChecks(b)[k].present :: RequiredChecks(b)[k].name in BuildCharacter(b, id).error.fields)
      && (forall n | n in BuildCharacter(b, id).error.fields ::
            exists k | 0 <= k < 8 :: !RequiredChecks(b)[k].present && RequiredChecks(b)[k].name == n)
  {
    CompleteIffNothingMissing(b);
    MissingMeaning(RequiredChecks(b));
  }

  /** `TryFrom<CharacterBuilder> for Character`: one `field_check` per
      required field, in order, then the record. */
  method Build(b: CharacterBuilder, id: Uuid) returns (r: Result<Character, CharacterBuildError>)
    ensures r == BuildCharacter(b, id)
  {
    var fa := new FieldAggregator();
    fa.FieldCheck(b.playerName, "Player Name");
    fa.FieldCheck(b.characterName, "Character Name");
    fa.FieldCheck(b.classEntry, "Class");
    fa.FieldCheck(b.ancestry, "Ancestry");
    fa.FieldCheck(b.background, "Background");
    fa.FieldCheck(b.attributes, "Attributes");
    fa.FieldCheck(b.physicalDefense, "Physical Defense");
    fa.FieldCheck(b.mysticalDefense, "Mystical Defense");
    assert fa.checks == RequiredChecks(b);
    RunIsMissing(fa.checks);
    var missing := Swap(ErrorFromAggregator(fa.fields));
    if missing.Err? {
      return Err(missing.error);
    }
    CompleteIffNothingMissing(b);
    r := Ok(Character(id, b.playerName.value, b.characterName.value, b.classEntry.value, b.ancestry.value,
                      b.background.value, b.level, b.attributes.value, b.physicalDefense.value, b.mysticalDefense.value));
  }

  /** A builder with no field set reports all eight names, in check order. */
  lemma NothingSetMissesAll(b: CharacterBuilder, id: Uuid)
    requires b.playerName.None? && b.characterName.None? && b.classEntry.None? && b.ancestry.None?
    requires b.background.None? && b.attributes.None? && b.physicalDefense.None? && b.mysticalDefense.None?
    ensures BuildCharacter(b, id) == Err(FieldMissing(["Player Name", "Character Name", "Class", "Ancestry", "Background", "Attributes", "Physical Defense", "Mystical Defense"]))
  {
    var names := ["Player Name", "Character Name", "Class", "Ancestry", "Background", "Attributes", "Physical Defense", "Mystical Defense"];
    assert RequiredChecks(b) == AllAbsent(names);
    MissingAllAbsent(names);
    assert Missing(RequiredChecks(b)) == names;
  }

  /** With only the player name set, every other name is reported. */
  lemma OnlyPlayerNameSet(b: CharacterBuilder, id: Uuid)
    requires b.playerName.Some? && b.characterName.None? && b.classEntry.None? && b.ancestry.None?
    requires b.background.None? && b.attributes.None? && b.physicalDefense.None? && b.mysticalDefense.None?
    ensures BuildCharacter(b, id) == Err(FieldMissing(["Character Name", "Class", "Ancestry", "Background", "Attributes", "Physical Defense", "Mystical Defense"]))
  {
    var rest := ["Character Name", "Class", "Ancestry", "Background", "Attributes", "Physical Defense", "Mystical Defense"];
    assert RequiredChecks(b) == [Check(true, "Player Name")] + AllAbsent(rest);
    MissingAfterPresent(Check(true, "Player Name"), rest);
  }

  /** With the player name and the ancestry set, "Ancestry" leaves the middle
      of the list. */
  lemma PlayerNameAndAncestrySet(b: CharacterBuilder, id: Uuid)
    requires b.playerName.Some? && b.characterName.None? && b.classEntry.None? && b.ancestry.Some?
    requires b.background.None? && b.attributes.None? && b.physicalDefense.None? && b.mysticalDefense.None?
    ensures BuildCharacter(b, id) == Err(FieldMissing(["Character Name", "Class", "Background", "Attributes", "Physical Defense", "Mystical Defense"]))
  {
    var named := ["Character Name", "Class"];
    var rest := ["Background", "Attributes", "Physical Defense", "Mystical Defense"];
    assert RequiredChecks(b) == [Check(true, "Player Name")] + AllAbsent(named) + [Check(true, "Ancestry")] + AllAbsent(rest);
    MissingAroundPresent(Check(true, "Player Name"), named, Check(true, "Ancestry"), rest);
    assert named + rest == ["Character Name", "Class", "Background", "Attributes", "Physical Defense", "Mystical Defense"];
  }

  /** The crate's test, first step: a fresh builder misses all eight fields. */
  lemma FreshBuilderMissesAll(id: Uuid)
    ensures BuildCharacter(NewBuilder(), id) == Err(FieldMissing(["Player Name", "Character Name", "Class", "Ancestry", "Background", "Attributes", "Physical Defense", "Mystical Defense"]))
  {
    NothingSetMissesAll(NewBuilder(), id);
  }

  /** Second step: a player name, whichever non-empty one, removes the first
      entry. */
  lemma PlayerNameRemovesFirst(id: Uuid, name: string)
    requires name != ""
    ensures BuildCharacter(PlayerName(NewBuilder(), name), id) == Err(FieldMissing(["Character Name", "Class", "Ancestry", "Background", "Attributes", "Physical Defense", "Mystical Defense"]))
  {
    OnlyPlayerNameSet(PlayerName(NewBuilder(), name), id);
  }

  /** Third step: an origin removes "Ancestry" from the middle. */
  lemma OriginRemovesAncestry(id: Uuid, name: string, human: Ancestry.Origin)
    requires name != ""
    ensures BuildCharacter(WithOrigin(PlayerName(NewBuilder(), name), human), id)
            == Err(FieldMissing(["Character Name", "Class", "Background", "Attributes", "Physical Defense", "Mystical Defense"]))
  {
    PlayerNameAndAncestrySet(WithOrigin(PlayerName(NewBuilder(), name), human), id);
  }
}
