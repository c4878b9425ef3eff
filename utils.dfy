/** Shared helpers of the crate's `utils` module: the `Result` type the
    builders return, the `SwapResult::swap` helper, and the opaque identifier
    the builders stamp on what they build. */
module Utils {

  /** Rust's `Result<T, E>`. */
  datatype Result<+T, +E> = Ok(value: T) | Err(error: E)

  /** Rust's `Option<T>`. */
  datatype Option<+T> = None | Some(value: T)

  /** `unwrap_or_default()` on an optional list: the list, or `[]`. */
  function OrEmpty<T>(o: Option<seq<T>>): (s: seq<T>)
    ensures o.Some? ==> s == o.value
    ensures o.None? ==> s == []
  {
    if o.Some? then o.value else []
  }

  /** An identifier. Generating one (`Uuid::new_v4`, `now_v7`) is outside the
      model: every operation that stamps an identifier receives it as a
      parameter. */
  datatype Uuid = Uuid(bits: nat)

  /** `SwapResult::swap`: turns an `Ok` into an `Err` and back, keeping the
      payload. */
  function Swap<T, E>(r: Result<T, E>): (s: Result<E, T>)
    ensures r.Ok? <==> s.Err?
    ensures r.Ok? ==> s.error == r.value
    ensures r.Err? ==> s.value == r.error
  {
    match r
    case Ok(t) => Err(t)
    case Err(e) => Ok(e)
  }

  /** Swapping twice gives back the original result. */
  lemma SwapInvolution<T, E>(r: Result<T, E>)
    ensures Swap(Swap(r)) == r
  {
  }

  /** The two cases the crate's test pins down (`mod.rs`, test lines 26-30). */
  lemma SwapExamples()
    ensures var r: Result<int, ()> := Ok(42); Swap(r) == Err(42)
    ensures var r: Result<(), int> := Err(42); Swap(r) == Ok(42)
  {
  }
}
