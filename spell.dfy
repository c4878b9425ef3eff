/** The range and duration values of `src/dc20/spell.rs` and the two parsers
    that turn a stored (kind, value) pair back into them. */
module Spell {
  import opened Utils

  /** A distance: the caster itself, touch, or a number of spaces. */
  datatype Range = Caster | Spaces(spaces: nat) | Touch

  /** How long an effect lasts. */
  datatype Duration = Instant | Minutes(minutes: nat) | Hours(hours: nat) | Rounds(rounds: nat)

  /** The error the parsers report, carrying its message. */
  datatype ParseError = ParseError(message: string)

  /** `Range::default()`. */
  function DefaultRange(): (r: Range)
    ensures r.Caster?
  {
    Caster
  }

  /** `Duration::default()`. */
  function DefaultDuration(): (d: Duration)
    ensures d.Instant?
  {
    Instant
  }

  /** The `as u64` cast of a stored `i64`: the same 64 bits read as
      unsigned, so a negative value wraps to `v + 2^64`. */
  function AsU64(v: int): (n: nat)
    requires -0x8000_0000_0000_0000 <= v < 0x8000_0000_0000_0000
    ensures n < 0x1_0000_0000_0000_0000
    ensures v >= 0 ==> n == v
    ensures v < 0 ==> n == v + 0x1_0000_0000_0000_0000
  {
    v % 0x1_0000_0000_0000_0000
  }

  /** The `i64` a `u64` is stored as: the inverse reading of the same bits. */
  function AsI64(n: nat): (v: int)
    requires n < 0x1_0000_0000_0000_0000
    ensures -0x8000_0000_0000_0000 <= v < 0x8000_0000_0000_0000
  {
    if n < 0x8000_0000_0000_0000 then n else n - 0x1_0000_0000_0000_0000
  }

  /** A stored value: an `i64`, if any. */
  predicate IsI64(value: Option<int>)
  {
    value.Some? ==> -0x8000_0000_0000_0000 <= value.value < 0x8000_0000_0000_0000
  }

  /** `Range::parse`. */
  function ParseRange(kind: string, value: Option<int>): (r: Result<Range, ParseError>)
    requires IsI64(value)
    ensures r.Ok? <==> kind == "Self" || kind == "Touch" || (kind == "Spaces" && value.Some?)
    ensures kind == "Self" ==> r == Ok(Caster)
    ensures kind == "Touch" ==> r == Ok(Touch)
    ensures kind == "Spaces" && value.Some? && value.value >= 0 ==> r == Ok(Spaces(value.value))
    ensures kind == "Spaces" && value.Some? && value.value < 0 ==> r == Ok(Spaces(value.value + 0x1_0000_0000_0000_0000))
    ensures r.Err? ==> r.error == ParseError("invalid range")
  {
    match kind
    case "Self" => Ok(Caster)
    case "Touch" => Ok(Touch)
    case "Spaces" =>
      if value.None? then Err(ParseError("invalid range")) else Ok(Spaces(AsU64(value.value)))
    case _ => Err(ParseError("invalid range"))
  }

  /** `Duration::parse`. */
  function ParseDuration(kind: string, value: Option<int>): (r: Result<Duration, ParseError>)
    requires IsI64(value)
    ensures r.Ok? <==> kind == "Instant" || (kind in ["Minutes", "Hours", "Rounds"] && value.Some?)
    ensures kind == "Instant" ==> r == Ok(Instant)
    ensures kind == "Minutes" && value.Some? && value.value >= 0 ==> r == Ok(Minutes(value.value))
    ensures kind == "Minutes" && value.Some? && value.value < 0 ==> r == Ok(Minutes(value.value + 0x1_0000_0000_0000_0000))
    ensures kind == "Hours" && value.Some? && value.value >= 0 ==> r == Ok(Hours(value.value))
    ensures kind == "Hours" && value.Some? && value.value < 0 ==> r == Ok(Hours(value.value + 0x1_0000_0000_0000_0000))
    ensures kind == "Rounds" && value.Some? && value.value >= 0 ==> r == Ok(Rounds(value.value))
    ensures kind == "Rounds" && value.Some? && value.value < 0 ==> r == Ok(Rounds(value.value + 0x1_0000_0000_0000_0000))
    ensures r.Err? ==> r.error == ParseError("invalid duration")
  {
    match kind
    case "Instant" => Ok(Instant)
    case "Minutes" =>
      if value.None? then Err(ParseError("invalid duration")) else Ok(Minutes(AsU64(value.value)))
    case "Hours" =>
      if value.None? then Err(ParseError("invalid duration")) else Ok(Hours(AsU64(value.value)))
    case "Rounds" =>
      if value.None? then Err(ParseError("invalid duration")) else Ok(Rounds(AsU64(value.value)))
    case _ => Err(ParseError("invalid duration"))
  }

  /** Every negative stored amount wraps around instead of being refused:
      it reads as an amount of at least 2^63, for each kind that carries
      one. */
  lemma NegativeAmountWraps(v: int)
    requires -0x8000_0000_0000_0000 <= v < 0
    ensures ParseRange("Spaces", Some(v)).Ok? && ParseRange("Spaces", Some(v)).value.spaces >= 0x8000_0000_0000_0000
    ensures ParseDuration("Minutes", Some(v)).Ok? && ParseDuration("Minutes", Some(v)).value.minutes >= 0x8000_0000_0000_0000
    ensures ParseDuration("Hours", Some(v)).Ok? && ParseDuration("Hours", Some(v)).value.hours >= 0x8000_0000_0000_0000
    ensures ParseDuration("Rounds", Some(v)).Ok? && ParseDuration("Rounds", Some(v)).value.rounds >= 0x8000_0000_0000_0000
  {
  }

  /** Two instances: -1 and -2 become the two largest `u64` values. */
  lemma NegativeAmountExamples()
    ensures ParseRange("Spaces", Some(-1)) == Ok(Spaces(0xFFFF_FFFF_FFFF_FFFF))
    ensures ParseDuration("Rounds", Some(-2)) == Ok(Rounds(0xFFFF_FFFF_FFFF_FFFE))
  {
  }

  /** The stored (kind, value) pair of a range: the inverse direction, used to
      state that `ParseRange` recovers every range. */
  function RangeKind(r: Range): string
  {
    match r
    case Caster => "Self"
    case Touch => "Touch"
    case Spaces(_) => "Spaces"
  }

  function DurationKind(d: Duration): string
  {
    match d
    case Instant => "Instant"
    case Minutes(_) => "Minutes"
    case Hours(_) => "Hours"
    case Rounds(_) => "Rounds"
  }

  /** Every range is recovered from its kind and its amount stored as an
      `i64`, and the value is ignored for the kinds that carry none. */
  lemma ParseRangeRoundTrip(r: Range, v: Option<int>)
    requires r.Spaces? ==> r.spaces < 0x1_0000_0000_0000_0000
    requires IsI64(v)
    ensures ParseRange(RangeKind(r), if r.Spaces? then Some(AsI64(r.spaces)) else v) == Ok(r)
  {
  }

  /** Every duration is recovered from its kind and its amount stored as an
      `i64`. */
  lemma ParseDurationRoundTrip(d: Duration, v: Option<int>)
    requires d.Minutes? ==> d.minutes < 0x1_0000_0000_0000_0000
    requires d.Hours? ==> d.hours < 0x1_0000_0000_0000_0000
    requires d.Rounds? ==> d.rounds < 0x1_0000_0000_0000_0000
    requires IsI64(v)
    ensures ParseDuration(DurationKind(d), match d
      case Instant => v
      case Minutes(n) => Some(AsI64(n))
      case Hours(n) => Some(AsI64(n))
      case Rounds(n) => Some(AsI64(n))) == Ok(d)
  {
  }
}
