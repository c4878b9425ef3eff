/** The background builder of `src/dc20/background.rs`: a by-value builder
    that collects a name and lists of skills, trades and languages, and the
    `TryFrom` that requires all four. */
module BackgroundBuilder {
  import opened Utils
  import opened FieldAggregation
  import opened Records

  datatype Builder = Builder(
    uuid: Uuid,
    name: Option<string>,
    skills: Option<seq<Skill>>,
    trades: Option<seq<Skill>>,
    languages: Option<seq<Language>>)

  datatype Background = Background(
    uuid: Uuid,
    name: string,
    skills: seq<Skill>,
    trades: seq<Skill>,
    languages: seq<Language>)

  datatype BuildError = FieldMissing(fields: seq<string>)

  /** `Builder::new(name)`: the name set, the three lists unset; the
      identifier is supplied by the caller. */
  function New(id: Uuid, name: string): (b: Builder)
    ensures b.uuid == id && b.name == Some(name)
    ensures b.skills.None? && b.trades.None? && b.languages.None?
  {
    Builder(id, Some(name), None, None, None)
  }

  /** `name`: overwrites the name and nothing else. */
  function WithName(b: Builder, name: string): (r: Builder)
    ensures r.name == Some(name) && r.(name := b.name) == b
  {
    b.(name := Some(name))
  }

  /** `add_skill`: appends, creating the list if needed; nothing else
      changes. */
  function AddSkill(b: Builder, s: Skill): (r: Builder)
    ensures r.skills == Some(OrEmpty(b.skills) + [s]) && r.(skills := b.skills) == b
  {
    b.(skills := Some(OrEmpty(b.skills) + [s]))
  }

  /** `add_trade`: as `add_skill`, on the trades. */
  function AddTrade(b: Builder, t: Skill): (r: Builder)
    ensures r.trades == Some(OrEmpty(b.trades) + [t]) && r.(trades := b.trades) == b
  {
    b.(trades := Some(OrEmpty(b.trades) + [t]))
  }

  /** `add_language`: as `add_skill`, on the languages. */
  function AddLanguage(b: Builder, l: Language): (r: Builder)
    ensures r.languages == Some(OrEmpty(b.languages) + [l]) && r.(languages := b.languages) == b
  {
    b.(languages := Some(OrEmpty(b.languages) + [l]))
  }

  /** `TryFrom<FieldAggregator> for BuildError`. */
  function ErrorFromAggregator(fields: Option<seq<string>>): (r: Result<BuildError, ()>)
    ensures r.Ok? <==> fields.Some?
    ensures r.Ok? ==> r.value == FieldMissing(fields.value)
  {
    match fields
    case Some(names) => Ok(FieldMissing(names))
    case None => Err(())
  }

  /** The four presence checks of `TryFrom`, in their order. */
  function RequiredChecks(b: Builder): seq<Check>
  {
    [ Check(b.name.Some?, "Name"),
      Check(b.skills.Some?, "Skills"),
      Check(b.trades.Some?, "Trades"),
      Check(b.languages.Some?, "Languages") ]
  }

  /** The names of the unset fields, in the order Name, Skills, Trades,
      Languages. */
  function UnsetFieldNames(b: Builder): seq<string>
  {
    (if b.name.None? then ["Name"] else [])
    + (if b.skills.None? then ["Skills"] else [])
    + (if b.trades.None? then ["Trades"] else [])
    + (if b.languages.None? then ["Languages"] else [])
  }

  lemma MissingRequiredChecks(b: Builder)
    ensures Missing(RequiredChecks(b)) == UnsetFieldNames(b)
    ensures UnsetFieldNames(b) == [] <==> b.name.Some? && b.skills.Some? && b.trades.Some? && b.languages.Some?
  {
    var cs := RequiredChecks(b);
    MissingOfFour(cs[0], cs[1], cs[2], cs[3]);
    assert cs == [cs[0], cs[1], cs[2], cs[3]];
  }

  /** What `TryFrom` returns for the builder `b`: a background exactly when
      the four fields are set, keeping the builder's identifier; otherwise
      a non-empty list of field names. */
  function BuildBackground(b: Builder): (r: Result<Background, BuildError>)
    ensures r.Ok? <==> b.name.Some? && b.skills.Some? && b.trades.Some? && b.languages.Some?
    ensures r.Ok? ==> r.value.uuid == b.uuid
    ensures r.Err? ==> r.error.fields != []
  {
    MissingRequiredChecks(b);
    var missing := Missing(RequiredChecks(b));
    if missing != [] then Err(FieldMissing(missing))
    else
      Ok(Background(b.uuid, b.name.value, b.skills.value, b.trades.value, b.languages.value))
  }

  /** The build fails exactly when a field is unset, naming the unset ones
      in order; otherwise it keeps the builder's identifier and every list
      unchanged. */
  lemma BuildBackgroundOutcomes(b: Builder)
    ensures BuildBackground(b).Err? <==> UnsetFieldNames(b) != []
    ensures BuildBackground(b).Err? ==> BuildBackground(b).error == FieldMissing(UnsetFieldNames(b))
    ensures BuildBackground(b).Ok? ==>
      BuildBackground(b).value == Background(b.uuid, b.name.value, b.skills.value, b.trades.value, b.languages.value)
  {
    MissingRequiredChecks(b);
  }

  /** `TryFrom<Builder> for Background`. */
  method Build(b: Builder) returns (r: Result<Background, BuildError>)
    ensures r == BuildBackground(b)
  {
    var fa := new FieldAggregator();
    fa.FieldCheck(b.name, "Name");
    fa.FieldCheck(b.skills, "Skills");
    fa.FieldCheck(b.trades, "Trades");
    fa.FieldCheck(b.languages, "Languages");
    assert fa.checks == RequiredChecks(b);
    RunIsMissing(fa.checks);
    var missing := Swap(ErrorFromAggregator(fa.fields));
    if missing.Err? {
      return Err(missing.error);
    }
    MissingRequiredChecks(b);
    r := Ok(Background(b.uuid, b.name.value, b.skills.value, b.trades.value, b.languages.value));
  }

  /** The crate's test: a "Soldier" background needs a skill, a trade and a
      language, reported in that order, and then keeps each. */
  lemma SoldierExample(id: Uuid, athletics: Skill, blacksmithing: Skill, common: Language)
    ensures BuildBackground(New(id, "Soldier")) == Err(FieldMissing(["Skills", "Trades", "Languages"]))
    ensures BuildBackground(AddSkill(New(id, "Soldier"), athletics)) == Err(FieldMissing(["Trades", "Languages"]))
    ensures BuildBackground(AddTrade(AddSkill(New(id, "Soldier"), athletics), blacksmithing)) == Err(FieldMissing(["Languages"]))
    ensures BuildBackground(AddLanguage(AddTrade(AddSkill(New(id, "Soldier"), athletics), blacksmithing), common))
            == Ok(Background(id, "Soldier", [athletics], [blacksmithing], [common]))
  {
    var b0 := New(id, "Soldier");
    var b1 := AddSkill(b0, athletics);
    var b2 := AddTrade(b1, blacksmithing);
    var b3 := AddLanguage(b2, common);
    BuildBackgroundOutcomes(b0);
    BuildBackgroundOutcomes(b1);
    BuildBackgroundOutcomes(b2);
    BuildBackgroundOutcomes(b3);
    assert UnsetFieldNames(b0) == ["Skills", "Trades", "Languages"];
    assert UnsetFieldNames(b1) == ["Trades", "Languages"];
    assert UnsetFieldNames(b2) == ["Languages"];
    assert [] + [athletics] == [athletics] && [] + [blacksmithing] == [blacksmithing] && [] + [common] == [common];
  }
}
