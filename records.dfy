/** Plain records the builders store without inspecting them: `Class` and
    `Subclass` of `src/dc20/class.rs`, `Skill` of `src/dc20/skill.rs`, and
    `Language`/`Fluency`/`LanguageFluency` of `src/dc20/language.rs`. */
module Records {
  import opened Utils

  datatype Subclass = Subclass(uuid: Uuid, name: string)

  datatype Class = Class(uuid: Uuid, name: string, subclass: Option<Subclass>)

  /** A skill tied to the attribute it is rolled with. */
  datatype Skill = Skill(id: Uuid, name: string, attributeId: Uuid)

  datatype Language = Language(name: string)

  datatype Fluency = Limited | Fluent

  datatype LanguageFluency = LanguageFluency(language: Language, fluency: Fluency)
}
