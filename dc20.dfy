/** The stand-alone character sheet of `src/dc20/dc20.rs`: its by-value
    `CharacterBuilder` with nine required fields, the records it stores, and
    the save and skill arithmetic. `Level` and `Defense` are declared there
    exactly as in `src/dc20/character.rs` and are taken from
    `CharacterStats`. */
module Dc20 {
  import opened Utils
  import opened FieldAggregation
  import opened CharacterStats

  datatype Subclass = Subclass(uuid: Uuid, name: string)

  datatype Class = Class(uuid: Uuid, name: string, subclass: Option<Subclass>)

  datatype Ancestry = Ancestry(uuid: Uuid, name: string)

  datatype Background = Background(uuid: Uuid, name: string)

  /** A level of training; the enum's discriminant is the bonus it grants. */
  datatype Mastery = Novice | Adept | Expert | Master | GrandMaster

  /** `mastery as isize`: the discriminant. */
  function Bonus(m: Mastery): (v: nat)
    ensures v in {2, 4, 6, 8, 10}
    ensures v % 2 == 0 && 2 <= v <= 10
  {
    match m
    case Novice => 2
    case Adept => 4
    case Expert => 6
    case Master => 8
    case GrandMaster => 10
  }

  /** Position of a mastery in the declaration order, which the derived
      `Ord` follows. */
  function Rank(m: Mastery): nat
  {
    match m
    case Novice => 0
    case Adept => 1
    case Expert => 2
    case Master => 3
    case GrandMaster => 4
  }

  /** Each step up the order adds two to the bonus, so distinct masteries
      grant distinct bonuses and the bonus follows the order. */
  lemma BonusFollowsRank(m: Mastery, n: Mastery)
    ensures Bonus(m) == 2 * (Rank(m) + 1)
    ensures Rank(m) < Rank(n) <==> Bonus(m) < Bonus(n)
    ensures Bonus(m) == Bonus(n) <==> m == n
  {
  }

  datatype Skill = Skill(uuid: Uuid, name: string, mastery: Option<Mastery>)

  datatype Stat = Stat(name: string, score: int, saveProficiency: bool, skills: seq<Skill>)

  datatype Fluency = Limited | Fluent

  datatype Language = Language(uuid: Uuid, name: string, fluency: Fluency)

  /** `Skill::new`: no mastery yet. */
  function NewSkill(id: Uuid, name: string): (s: Skill)
    ensures s.mastery.None? && s.name == name && s.uuid == id
  {
    Skill(id, name, None)
  }

  /** `Skill::set_mastery`: sets the mastery, whatever it was, and keeps the
      rest. */
  function SetMastery(s: Skill, m: Mastery): (r: Skill)
    ensures r.mastery == Some(m)
    ensures r.uuid == s.uuid && r.name == s.name
  {
    s.(mastery := Some(m))
  }

  /** `Language::new`: limited fluency. */
  function NewLanguage(id: Uuid, name: string): (l: Language)
    ensures l.fluency == Limited && l.name == name && l.uuid == id
  {
    Language(id, name, Limited)
  }

  /** `Language::set_fluency`: sets the fluency and keeps the rest. */
  function SetFluency(l: Language, f: Fluency): (r: Language)
    ensures r.fluency == f
    ensures r.uuid == l.uuid && r.name == l.name
  {
    l.(fluency := f)
  }

  /** `Stat::calc_save`: the score plus the combat mastery of the level,
      whether or not the stat has save proficiency. */
  function CalcSave(s: Stat, level: Level): (r: int)
    ensures r - s.score == CombatMastery(level)
    ensures 2 * (r - s.score) == level.value || 2 * (r - s.score) == level.value + 1
  {
    s.score + CombatMastery(level)
  }

  /** The save ignores the proficiency flag and the skills, and grows with
      the level. */
  lemma CalcSaveIgnoresProficiency(s: Stat, level: Level, p: bool, skills: seq<Skill>, higher: Level)
    ensures CalcSave(s.(saveProficiency := p, skills := skills), level) == CalcSave(s, level)
    ensures level.value <= higher.value ==> CalcSave(s, level) <= CalcSave(s, higher)
  {
    CombatMasteryGrowth(level, higher);
  }

  /** `Skill::calc_score`: the stat's score, plus the mastery's bonus when a
      mastery is set. */
  function CalcScore(sk: Skill, stat: Stat): (r: int)
    ensures sk.mastery.None? ==> r == stat.score
    ensures sk.mastery.Some? ==> r == stat.score + Bonus(sk.mastery.value)
  {
    match sk.mastery
    case Some(m) => Bonus(m) + stat.score
    case None => stat.score
  }

  /** A mastery always raises the score, by an even amount between 2 and 10,
      and a higher mastery raises it more. */
  lemma CalcScoreBounds(sk: Skill, stat: Stat, m: Mastery, n: Mastery)
    ensures stat.score <= CalcScore(sk, stat) <= stat.score + 10
    ensures CalcScore(SetMastery(sk, m), stat) - stat.score in {2, 4, 6, 8, 10}
    ensures Rank(m) < Rank(n) ==> CalcScore(SetMastery(sk, m), stat) < CalcScore(SetMastery(sk, n), stat)
  {
    BonusFollowsRank(m, n);
  }

  datatype CharacterBuilder = CharacterBuilder(
    playerName: Option<string>,
    characterName: Option<string>,
    classEntry: Option<Class>,
    ancestry: Option<Ancestry>,
    background: Option<Background>,
    level: Level,
    stats: Option<seq<Stat>>,
    trades: seq<Skill>,
    languages: Option<seq<Language>>,
    physicalDefense: Option<Defense>,
    mysticalDefense: Option<Defense>)

  datatype Character = Character(
    id: Uuid,
    playerName: string,
    characterName: string,
    classEntry: Class,
    ancestry: Ancestry,
    background: Background,
    level: Level,
    stats: seq<Stat>,
    trades: seq<Skill>,
    languages: seq<Language>,
    physicalDefense: Defense,
    mysticalDefense: Defense)

  datatype CharacterBuildError = FieldMissing(fields: seq<string>)

  /** `TryFrom<FieldAggregator> for CharacterBuildError` (the file keeps a
      private copy of the aggregator that behaves as the shared one). */
  function ErrorFromAggregator(fields: Option<seq<string>>): (r: Result<CharacterBuildError, ()>)
    ensures r.Ok? <==> fields.Some?
    ensures r.Ok? ==> r.value == FieldMissing(fields.value)
  {
    match fields
    case Some(names) => Ok(FieldMissing(names))
    case None => Err(())
  }

  /** `CharacterBuilder::new()`: nothing set, no trades, level 1. */
  function NewBuilder(): (b: CharacterBuilder)
    ensures b.playerName.None? && b.characterName.None? && b.classEntry.None? && b.ancestry.None?
    ensures b.background.None? && b.stats.None? && b.languages.None?
    ensures b.physicalDefense.None? && b.mysticalDefense.None?
    ensures b.trades == [] && b.level == DefaultLevel()
  {
    CharacterBuilder(None, None, None, None, None, DefaultLevel(), None, [], None, None, None)
  }

  /** `player_name`: the empty string leaves the builder as it was; any other
      name overwrites. */
  function PlayerName(b: CharacterBuilder, name: string): (r: CharacterBuilder)
    ensures name == [] ==> r == b
    ensures name != [] ==> r == b.(playerName := Some(name))
  {
    if name == [] then b else b.(playerName := Some(name))
  }

  /** `character_name`: as `player_name`. */
  function CharacterName(b: CharacterBuilder, name: string): (r: CharacterBuilder)
    ensures name == [] ==> r == b
    ensures name != [] ==> r == b.(characterName := Some(name))
  {
    if name == [] then b else b.(characterName := Some(name))
  }

  /** `class`: sets the class and nothing else, so only the "Class" check turns present. */
  function WithClass(b: CharacterBuilder, c: Class): (r: CharacterBuilder)
    ensures r.classEntry == Some(c) && r.(classEntry := b.classEntry) == b
    ensures RequiredChecks(r) == RequiredChecks(b)[2 := Check(true, "Class")]
  {
    b.(classEntry := Some(c))
  }

  /** `ancestry`: sets the ancestry and nothing else, so only the "Ancestry" check turns present. */
  function WithAncestry(b: CharacterBuilder, a: Ancestry): (r: CharacterBuilder)
    ensures r.ancestry == Some(a) && r.(ancestry := b.ancestry) == b
    ensures RequiredChecks(r) == RequiredChecks(b)[3 := Check(true, "Ancestry")]
  {
    b.(ancestry := Some(a))
  }

  /** `background`: sets the background and nothing else. */
  function WithBackground(b: CharacterBuilder, g: Background): (r: CharacterBuilder)
    ensures r.background == Some(g) && r.(background := b.background) == b
    ensures RequiredChecks(r) == RequiredChecks(b)[4 := Check(true, "Background")]
  {
    b.(background := Some(g))
  }

  /** `physical_defense`: sets that defense and nothing else. */
  function WithPhysicalDefense(b: CharacterBuilder, d: Defense): (r: CharacterBuilder)
    ensures r.physicalDefense == Some(d) && r.(physicalDefense := b.physicalDefense) == b
    ensures RequiredChecks(r) == RequiredChecks(b)[7 := Check(true, "Physical Defense")]
  {
    b.(physicalDefense := Some(d))
  }

  /** `mystical_defense`: sets that defense and nothing else. */
  function WithMysticalDefense(b: CharacterBuilder, d: Defense): (r: CharacterBuilder)
    ensures r.mysticalDefense == Some(d) && r.(mysticalDefense := b.mysticalDefense) == b
    ensures RequiredChecks(r) == RequiredChecks(b)[8 := Check(true, "Mystical Defense")]
  {
    b.(mysticalDefense := Some(d))
  }

  /** `add_stat`: appends, creating the list if there was none. */
  function AddStat(b: CharacterBuilder, s: Stat): (r: CharacterBuilder)
    ensures r.stats.Some? && r.stats.value == OrEmpty(b.stats) + [s]
    ensures r.(stats := b.stats) == b
  {
    b.(stats := Some(OrEmpty(b.stats) + [s]))
  }

  /** `add_trade`: appends to the always-present trade list. */
  function AddTrade(b: CharacterBuilder, t: Skill): (r: CharacterBuilder)
    ensures r.trades == b.trades + [t]
    ensures r.(trades := b.trades) == b
  {
    b.(trades := b.trades + [t])
  }

  /** `add_language`: appends, creating the list if there was none. */
  function AddLanguage(b: CharacterBuilder, l: Language): (r: CharacterBuilder)
    ensures r.languages.Some? && r.languages.value == OrEmpty(b.languages) + [l]
    ensures r.(languages := b.languages) == b
  {
    b.(languages := Some(OrEmpty(b.languages) + [l]))
  }

  /** A chain of `add_stat` calls, one per element of `ss`, in order. */
  function AddStats(b: CharacterBuilder, ss: seq<Stat>): CharacterBuilder
    decreases |ss|
  {
    if ss == [] then b else AddStats(AddStat(b, ss[0]), ss[1..])
  }

  /** A chain of `add_language` calls, in order. */
  function AddLanguages(b: CharacterBuilder, ls: seq<Language>): CharacterBuilder
    decreases |ls|
  {
    if ls == [] then b else AddLanguages(AddLanguage(b, ls[0]), ls[1..])
  }

  /** Adding stats one by one keeps them all, in call order, after those
      already there, and touches no other field; a non-empty chain always
      leaves a list. */
  lemma {:induction false} AddStatsInOrder(b: CharacterBuilder, ss: seq<Stat>)
    ensures OrEmpty(AddStats(b, ss).stats) == OrEmpty(b.stats) + ss
    ensures ss != [] ==> AddStats(b, ss).stats.Some?
    ensures AddStats(b, ss).(stats := b.stats) == b
    decreases |ss|
  {
    if ss == [] {
      assert OrEmpty(b.stats) + ss == OrEmpty(b.stats);
    } else {
      AddStatsInOrder(AddStat(b, ss[0]), ss[1..]);
      assert OrEmpty(b.stats) + [ss[0]] + ss[1..] == OrEmpty(b.stats) + ss;
    }
  }

  /** The same for languages. */
  lemma {:induction false} AddLanguagesInOrder(b: CharacterBuilder, ls: seq<Language>)
    ensures OrEmpty(AddLanguages(b, ls).languages) == OrEmpty(b.languages) + ls
    ensures ls != [] ==> AddLanguages(b, ls).languages.Some?
    ensures AddLanguages(b, ls).(languages := b.languages) == b
    decreases |ls|
  {
    if ls == [] {
      assert OrEmpty(b.languages) + ls == OrEmpty(b.languages);
    } else {
      AddLanguagesInOrder(AddLanguage(b, ls[0]), ls[1..]);
      assert OrEmpty(b.languages) + [ls[0]] + ls[1..] == OrEmpty(b.languages) + ls;
    }
  }

  /** The nine presence checks of `TryFrom`, in their order; the trades are
      not among them. */
  function RequiredChecks(b: CharacterBuilder): seq<Check>
  {
    [ Check(b.playerName.Some?, "Player Name"),
      Check(b.characterName.Some?, "Character Name"),
      Check(b.classEntry.Some?, "Class"),
      Check(b.ancestry.Some?, "Ancestry"),
      Check(b.background.Some?, "Background"),
      Check(b.stats.Some?, "Stats"),
      Check(b.languages.Some?, "Languages"),
      Check(b.physicalDefense.Some?, "Physical Defense"),
      Check(b.mysticalDefense.Some?, "Mystical Defense") ]
  }

  predicate Complete(b: CharacterBuilder)
  {
    && b.playerName.Some? && b.characterName.Some? && b.classEntry.Some? && b.ancestry.Some?
    && b.background.Some? && b.stats.Some? && b.languages.Some?
    && b.physicalDefense.Some? && b.mysticalDefense.Some?
  }

  lemma CompleteIffNothingMissing(b: CharacterBuilder)
    ensures Missing(RequiredChecks(b)) == [] <==> Complete(b)
  {
    var cs := RequiredChecks(b);
    MissingMeaning(cs);
    assert cs[0].present == b.playerName.Some?;
    assert cs[1].present == b.characterName.Some?;
    assert cs[2].present == b.classEntry.Some?;
    assert cs[3].present == b.ancestry.Some?;
    assert cs[4].present == b.background.Some?;
    assert cs[5].present == b.stats.Some?;
    assert cs[6].present == b.languages.Some?;
    assert cs[7].present == b.physicalDefense.Some?;
    assert cs[8].present == b.mysticalDefense.Some?;
  }

  /** What `TryFrom` returns for the builder `b`, given the identifier: a
      character exactly when the nine fields are set, carrying the
      identifier, the level and the trades as they are; otherwise between
      one and nine field names. */
  function BuildCharacter(b: CharacterBuilder, id: Uuid): (r: Result<Character, CharacterBuildError>)
    ensures r.Ok? <==> Complete(b)
    ensures r.Ok? ==> r.value.id == id && r.value.level == b.level && r.value.trades == b.trades
    ensures r.Err? ==> 1 <= |r.error.fields| <= 9
  {
    CompleteIffNothingMissing(b);
    var missing := Missing(RequiredChecks(b));
    if missing != [] then Err(FieldMissing(missing))
    else
      Ok(Character(id, b.playerName.value, b.characterName.value, b.classEntry.value, b.ancestry.value,
                   b.background.value, b.level, b.stats.value, b.trades, b.languages.value,
                   b.physicalDefense.value, b.mysticalDefense.value))
  }

  /** A character is built exactly when the nine fields are set, and it then
      copies every field, trades and level included. Otherwise the error
      names exactly the unset fields. Trades never decide the outcome. */
  lemma BuildCharacterOutcomes(b: CharacterBuilder, id: Uuid, trades: seq<Skill>)
    ensures BuildCharacter(b, id).Ok? <==> Complete(b)
    ensures BuildCharacter(b, id).Ok? ==>
      BuildCharacter(b, id).value == Character(id, b.playerName.value, b.characterName.value, b.classEntry.value,
                                               b.ancestry.value, b.background.value, b.level, b.stats.value, b.trades,
                                               b.languages.value, b.physicalDefense.value, b.mysticalDefense.value)
    ensures BuildCharacter(b, id).Err? ==>
      && BuildCharacter(b, id).error.fields == Missing(RequiredChecks(b))
      && (forall k | 0 <= k < 9 && !RequiredChecks(b)[k].present :: RequiredChecks(b)[k].name in BuildCharacter(b, id).error.fields)
      && (forall n | n in BuildCharacter(b, id).error.fields ::
            exists k | 0 <= k < 9 :: !RequiredChecks(b)[k].present && RequiredChecks(b)[k].name == n)
    ensures BuildCharacter(b.(trades := trades), id).Ok? == BuildCharacter(b, id).Ok?
  {
    CompleteIffNothingMissing(b);
    CompleteIffNothingMissing(b.(trades := trades));
    MissingMeaning(RequiredChecks(b));
  }

  /** `TryFrom<CharacterBuilder> for Character`: one `field_check` per
      required field, in order, then the record with the trades moved over
      as they are. */
  method Build(b: CharacterBuilder, id: Uuid) returns (r: Result<Character, CharacterBuildError>)
    ensures r == BuildCharacter(b, id)
  {
    var trades := b.trades;
    var fa := new FieldAggregator();
    fa.FieldCheck(b.playerName, "Player Name");
    fa.FieldCheck(b.characterName, "Character Name");
    fa.FieldCheck(b.classEntry, "Class");
    fa.FieldCheck(b.ancestry, "Ancestry");
    fa.FieldCheck(b.background, "Background");
    fa.FieldCheck(b.stats, "Stats");
    fa.FieldCheck(b.languages, "Languages");
    fa.FieldCheck(b.physicalDefense, "Physical Defense");
    fa.FieldCheck(b.mysticalDefense, "Mystical Defense");
    assert fa.checks == RequiredChecks(b);
    RunIsMissing(fa.checks);
    var missing := Swap(ErrorFromAggregator(fa.fields));
    if missing.Err? {
      return Err(missing.error);
    }
    CompleteIffNothingMissing(b);
    r := Ok(Character(id, b.playerName.value, b.characterName.value, b.classEntry.value, b.ancestry.value,
                      b.background.value, b.level, b.stats.value, trades, b.languages.value,
                      b.physicalDefense.value, b.mysticalDefense.value));
  }

  /** A builder with no field set reports all nine names, in check order. */
  lemma NothingSetMissesAll(b: CharacterBuilder, id: Uuid)
    requires b.playerName.None? && b.characterName.None? && b.classEntry.None? && b.ancestry.None? && b.background.None?
    requires b.stats.None? && b.languages.None? && b.physicalDefense.None? && b.mysticalDefense.None?
    ensures BuildCharacter(b, id) == Err(FieldMissing(["Player Name", "Character Name", "Class", "Ancestry", "Background", "Stats", "Languages", "Physical Defense", "Mystical Defense"]))
  {
    var names := ["Player Name", "Character Name", "Class", "Ancestry", "Background", "Stats", "Languages", "Physical Defense", "Mystical Defense"];
    assert RequiredChecks(b) == AllAbsent(names);
    MissingAllAbsent(names);
    assert Missing(RequiredChecks(b)) == names;
  }

  /** With only the player name set, every other name is reported. */
  lemma OnlyPlayerNameSet(b: CharacterBuilder, id: Uuid)
    requires b.playerName.Some? && b.characterName.None? && b.classEntry.None? && b.ancestry.None? && b.background.None?
    requires b.stats.None? && b.languages.None? && b.physicalDefense.None? && b.mysticalDefense.None?
    ensures BuildCharacter(b, id) == Err(FieldMissing(["Character Name", "Class", "Ancestry", "Background", "Stats", "Languages", "Physical Defense", "Mystical Defense"]))
  {
    var rest := ["Character Name", "Class", "Ancestry", "Background", "Stats", "Languages", "Physical Defense", "Mystical Defense"];
    assert RequiredChecks(b) == [Check(true, "Player Name")] + AllAbsent(rest);
    MissingAfterPresent(Check(true, "Player Name"), rest);
  }

  /** With the player name and the ancestry set, "Ancestry" leaves the middle
      of the list. */
  lemma PlayerNameAndAncestrySet(b: CharacterBuilder, id: Uuid)
    requires b.playerName.Some? && b.characterName.None? && b.classEntry.None? && b.ancestry.Some? && b.background.None?
    requires b.stats.None? && b.languages.None? && b.physicalDefense.None? && b.mysticalDefense.None?
    ensures BuildCharacter(b, id) == Err(FieldMissing(["Character Name", "Class", "Background", "Stats", "Languages", "Physical Defense", "Mystical Defense"]))
  {
    var named := ["Character Name", "Class"];
    var rest := ["Background", "Stats", "Languages", "Physical Defense", "Mystical Defense"];
    assert RequiredChecks(b) == [Check(true, "Player Name")] + AllAbsent(named) + [Check(true, "Ancestry")] + AllAbsent(rest);
    MissingAroundPresent(Check(true, "Player Name"), named, Check(true, "Ancestry"), rest);
    assert named + rest == ["Character Name", "Class", "Background", "Stats", "Languages", "Physical Defense", "Mystical Defense"];
  }

  /** The crate's test, first step: a fresh builder misses all nine fields. */
  lemma FreshBuilderMissesAll(id: Uuid)
    ensures BuildCharacter(NewBuilder(), id) == Err(FieldMissing(["Player Name", "Character Name", "Class", "Ancestry", "Background", "Stats", "Languages", "Physical Defense", "Mystical Defense"]))
  {
    NothingSetMissesAll(NewBuilder(), id);
  }

  /** Second step: a player name, whichever non-empty one, removes the first
      entry. */
  lemma PlayerNameRemovesFirst(id: Uuid, name: string)
    requires name != ""
    ensures BuildCharacter(PlayerName(NewBuilder(), name), id) == Err(FieldMissing(["Character Name", "Class", "Ancestry", "Background", "Stats", "Languages", "Physical Defense", "Mystical Defense"]))
  {
    OnlyPlayerNameSet(PlayerName(NewBuilder(), name), id);
  }

  /** Third step: an ancestry removes "Ancestry" from the middle. */
  lemma AncestryRemovesAncestry(id: Uuid, name: string, human: Ancestry)
    requires name != ""
    ensures BuildCharacter(WithAncestry(PlayerName(NewBuilder(), name), human), id)
            == Err(FieldMissing(["Character Name", "Class", "Background", "Stats", "Languages", "Physical Defense", "Mystical Defense"]))
  {
    PlayerNameAndAncestrySet(WithAncestry(PlayerName(NewBuilder(), name), human), id);
  }

  /** Last step of the test: with every field given, the character is built
      with level 1, no trades, the one stat and the one language. */
  lemma FullCharacterBuilt(id: Uuid, champion: Class, human: Ancestry, soldier: Background,
                           perception: Skill, common: Language)
    ensures var prime := Stat("Prime", 3, false, [SetMastery(perception, Novice)]);
            var fluent := SetFluency(common, Fluent);
            var physical := Defense("Physical Defense", 10, 0);
            var mystical := Defense("Mystical Defense", 10, 0);
            var b := WithMysticalDefense(WithPhysicalDefense(AddLanguage(AddStat(
                       WithBackground(WithAncestry(WithClass(CharacterName(PlayerName(NewBuilder(),
                         "John Doe"), "Johannas Doeworth"), champion), human), soldier),
                       prime), fluent), physical), mystical);
            BuildCharacter(b, id)
            == Ok(Character(id, "John Doe", "Johannas Doeworth", champion, human, soldier, Level(1),
                            [prime], [], [fluent], physical, mystical))
  {
    var prime := Stat("Prime", 3, false, [SetMastery(perception, Novice)]);
    var fluent := SetFluency(common, Fluent);
    var physical := Defense("Physical Defense", 10, 0);
    var mystical := Defense("Mystical Defense", 10, 0);
    var b := WithMysticalDefense(WithPhysicalDefense(AddLanguage(AddStat(
               WithBackground(WithAncestry(WithClass(CharacterName(PlayerName(NewBuilder(),
                 "John Doe"), "Johannas Doeworth"), champion), human), soldier),
               prime), fluent), physical), mystical);
    assert [] + [prime] == [prime];
    assert [] + [fluent] == [fluent];
    CompleteIffNothingMissing(b);
  }
}
