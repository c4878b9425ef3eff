/** The five attributes of `src/dc20/attribute.rs`: the closed set of names
    with its parser and `Display` rendering, the defenses derived from the
    scores, and the per-attribute `AttributeLevel` with its save. */
module Attribute {
  import opened Utils
  import opened Records
  import CharacterStats

  datatype AttributeName = Prime | Might | Agility | Charisma | Intelligence

  datatype AttributeNameParseError = AttributeNameParseError

  /** `Display` (the variant's `Debug` name): the one string `from_str`
      turns back into `n`. */
  function Name(n: AttributeName): (r: string)
    ensures FromStr(r) == Ok(n)
  {
    match n
    case Prime => "Prime"
    case Might => "Might"
    case Agility => "Agility"
    case Charisma => "Charisma"
    case Intelligence => "Intelligence"
  }

  /** `AttributeName::from_str`: exactly the five names, spelt as `Display`
      spells them, are accepted. */
  function FromStr(s: string): (r: Result<AttributeName, AttributeNameParseError>)
    ensures r.Ok? <==> s in {"Prime", "Might", "Agility", "Charisma", "Intelligence"}
    ensures r.Err? ==> r.error == AttributeNameParseError
  {
    match s
    case "Prime" => Ok(Prime)
    case "Might" => Ok(Might)
    case "Agility" => Ok(Agility)
    case "Charisma" => Ok(Charisma)
    case "Intelligence" => Ok(Intelligence)
    case _ => Err(AttributeNameParseError)
  }

  /** Parsing the rendering of a name gives the name back, and every accepted
      string is the rendering of what it parses to. */
  lemma NameRoundTrip(n: AttributeName, s: string)
    ensures FromStr(Name(n)) == Ok(n)
    ensures FromStr(s).Ok? ==> Name(FromStr(s).value) == s
  {
  }

  /** `Attributes`: the five scores (`i64`). */
  datatype Attributes = Attributes(prime: int, might: int, agility: int, charisma: int, intelligence: int)

  /** The defense record `precision_defense`/`area_defense` produce: a score
      and a damage reduction. */
  datatype Defense = Defense(score: nat, reduction: nat)

  /** `precision_defense`: 8, plus combat mastery, agility and intelligence;
      no reduction. The scores are cast from signed to unsigned in the
      source; the model asks that they be non-negative. */
  function PrecisionDefense(a: Attributes, combatMastery: nat): (d: Defense)
    requires a.agility >= 0 && a.intelligence >= 0
    ensures d.score == 8 + combatMastery + a.agility + a.intelligence
    ensures d.reduction == 0
  {
    Defense(8 + combatMastery + a.agility + a.intelligence, 0)
  }

  /** `area_defense`: 8, plus combat mastery, might and charisma; no
      reduction. */
  function AreaDefense(a: Attributes, combatMastery: nat): (d: Defense)
    requires a.might >= 0 && a.charisma >= 0
    ensures d.score == 8 + combatMastery + a.might + a.charisma
    ensures d.reduction == 0
  {
    Defense(8 + combatMastery + a.might + a.charisma, 0)
  }

  /** Each defense reads its own two attributes only, and grows by one with
      each point of combat mastery. */
  lemma DefensesDependOnTheirAttributes(a: Attributes, b: Attributes, cm: nat)
    requires a.agility >= 0 && a.intelligence >= 0 && a.might >= 0 && a.charisma >= 0
    requires b.agility == a.agility && b.intelligence == a.intelligence && b.might >= 0 && b.charisma >= 0
    ensures PrecisionDefense(b, cm) == PrecisionDefense(a, cm)
    ensures PrecisionDefense(a, cm + 1).score == PrecisionDefense(a, cm).score + 1
    ensures AreaDefense(a, cm + 1).score == AreaDefense(a, cm).score + 1
  {
  }

  /** `AttributeLevel`: a score (`isize`), whether the save is proficient,
      and the skills under the attribute. */
  datatype AttributeLevel = AttributeLevel(baseScore: int, saveProficiency: bool, skills: seq<Skill>)

  /** `AttributeLevel::new()`: score 0, not proficient, no skills. */
  function NewAttributeLevel(): (a: AttributeLevel)
    ensures a.baseScore == 0 && !a.saveProficiency && a.skills == []
  {
    AttributeLevel(0, false, [])
  }

  /** `with_base_score`: sets the score and nothing else. */
  function WithBaseScore(a: AttributeLevel, score: int): (r: AttributeLevel)
    ensures r.baseScore == score && r.saveProficiency == a.saveProficiency && r.skills == a.skills
  {
    a.(baseScore := score)
  }

  /** `with_save_proficiency`: sets the flag and nothing else. */
  function WithSaveProficiency(a: AttributeLevel): (r: AttributeLevel)
    ensures r.saveProficiency && r.baseScore == a.baseScore && r.skills == a.skills
  {
    a.(saveProficiency := true)
  }

  /** `with_skill`: appends the skill and nothing else. */
  function WithSkill(a: AttributeLevel, skill: Skill): (r: AttributeLevel)
    ensures r.skills == a.skills + [skill] && r.baseScore == a.baseScore && r.saveProficiency == a.saveProficiency
  {
    a.(skills := a.skills + [skill])
  }

  /** `calc_save`: the score, plus the level's combat mastery when the save
      is proficient. */
  function CalcSave(a: AttributeLevel, level: CharacterStats.Level): (s: int)
    ensures a.saveProficiency ==> s == a.baseScore + CharacterStats.CombatMastery(level)
    ensures !a.saveProficiency ==> s == a.baseScore
  {
    if a.saveProficiency then a.baseScore + CharacterStats.CombatMastery(level) else a.baseScore
  }

  /** A proficient save is never lower than the plain one, and exceeds it by
      exactly the combat mastery; the setters that do not touch the score or
      the flag leave the save alone. */
  lemma SaveProficiencyBonus(a: AttributeLevel, level: CharacterStats.Level, skill: Skill)
    ensures CalcSave(WithSaveProficiency(a), level) == CalcSave(a.(saveProficiency := false), level) + CharacterStats.CombatMastery(level)
    ensures CalcSave(WithSaveProficiency(a), level) >= CalcSave(a, level)
    ensures CalcSave(WithSkill(a, skill), level) == CalcSave(a, level)
  {
  }
}
