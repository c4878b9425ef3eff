/** `FieldAggregator` of `src/utils/field_aggregator.rs`: a collector that the
    builders feed with one presence check per required field, and which ends
    up holding the names of the absent fields, in call order, or nothing when
    every field was present. */
module FieldAggregation {
  import opened Utils

  /** One `field_check` call: whether the field was set, and its name. */
  datatype Check = Check(present: bool, name: string)

  /** Effect of one `field_check` on the held list. */
  function Step(fields: Option<seq<string>>, c: Check): Option<seq<string>>
  {
    if c.present then fields else Some(OrEmpty(fields) + [c.name])
  }

  /** What an aggregator created by `new()` holds after the checks `cs`, in
      order. */
  function Run(cs: seq<Check>): Option<seq<string>>
  {
    if cs == [] then None else Step(Run(cs[..|cs| - 1]), cs[|cs| - 1])
  }

  /** The names of the absent fields among `cs`, in call order. */
  function Missing(cs: seq<Check>): (r: seq<string>)
    ensures |r| <= |cs|
  {
    if cs == [] then []
    else (if cs[0].present then [] else [cs[0].name]) + Missing(cs[1..])
  }

  /** Nothing is missing exactly when every check was present; every absent
      field is named, and every name comes from an absent field. */
  lemma {:induction false} MissingMeaning(cs: seq<Check>)
    ensures Missing(cs) == [] <==> forall i | 0 <= i < |cs| :: cs[i].present
    ensures forall i | 0 <= i < |cs| && !cs[i].present :: cs[i].name in Missing(cs)
    ensures forall n | n in Missing(cs) :: exists i | 0 <= i < |cs| :: !cs[i].present && cs[i].name == n
  {
    if cs != [] {
      MissingMeaning(cs[1..]);
      var head := if cs[0].present then [] else [cs[0].name];
      assert Missing(cs) == head + Missing(cs[1..]);
      forall i | 1 <= i < |cs|
        ensures cs[1..][i - 1] == cs[i]
      {
      }
      forall n | n in Missing(cs)
        ensures exists i | 0 <= i < |cs| :: !cs[i].present && cs[i].name == n
      {
        if n in head {
          assert !cs[0].present && cs[0].name == n;
        } else {
          assert n in Missing(cs[1..]);
          var j :| 0 <= j < |cs[1..]| && !cs[1..][j].present && cs[1..][j].name == n;
          assert cs[j + 1] == cs[1..][j];
        }
      }
    }
  }

  lemma {:induction false} MissingAppend(cs: seq<Check>, c: Check)
    ensures Missing(cs + [c]) == Missing(cs) + (if c.present then [] else [c.name])
  {
    if cs != [] {
      assert (cs + [c])[1..] == cs[1..] + [c];
      MissingAppend(cs[1..], c);
    }
  }

  /** After a run of checks the aggregator holds exactly the names of the
      absent fields in call order, and it holds `None` exactly when every
      field was present. */
  lemma {:induction false} RunIsMissing(cs: seq<Check>)
    ensures Run(cs) == if Missing(cs) == [] then None else Some(Missing(cs))
  {
    if cs != [] {
      var init, last := cs[..|cs| - 1], cs[|cs| - 1];
      assert cs == init + [last];
      RunIsMissing(init);
      MissingAppend(init, last);
      assert Run(cs) == Step(Run(init), last);
      if last.present {
        assert Missing(cs) == Missing(init) + [];
        assert Missing(init) + [] == Missing(init);
      } else {
        assert Missing(cs) == Missing(init) + [last.name];
        assert OrEmpty(Run(init)) == Missing(init);
      }
    }
  }

  /** The name a single check contributes. */
  function Absent(c: Check): seq<string>
  {
    if c.present then [] else [c.name]
  }

  lemma MissingOfThree(c0: Check, c1: Check, c2: Check)
    ensures Missing([c0, c1, c2]) == Absent(c0) + Absent(c1) + Absent(c2)
  {
    MissingAppend([], c0);
    assert [] + [c0] == [c0];
    MissingAppend([c0], c1);
    assert [c0] + [c1] == [c0, c1];
    MissingAppend([c0, c1], c2);
    assert [c0, c1] + [c2] == [c0, c1, c2];
  }

  lemma MissingOfFour(c0: Check, c1: Check, c2: Check, c3: Check)
    ensures Missing([c0, c1, c2, c3]) == Absent(c0) + Absent(c1) + Absent(c2) + Absent(c3)
  {
    MissingAppend([], c0);
    assert [] + [c0] == [c0];
    MissingAppend([c0], c1);
    assert [c0] + [c1] == [c0, c1];
    MissingAppend([c0, c1], c2);
    assert [c0, c1] + [c2] == [c0, c1, c2];
    MissingAppend([c0, c1, c2], c3);
    assert [c0, c1, c2] + [c3] == [c0, c1, c2, c3];
  }

  /** `Missing` distributes over concatenation of check lists. */
  lemma {:induction false} MissingConcat(a: seq<Check>, b: seq<Check>)
    ensures Missing(a + b) == Missing(a) + Missing(b)
  {
    if a != [] {
      assert (a + b)[1..] == a[1..] + b;
      MissingConcat(a[1..], b);
    } else {
      assert a + b == b;
    }
  }

  /** The checks of fields that are all unset, named `names` in order. */
  function AllAbsent(names: seq<string>): (cs: seq<Check>)
    ensures |cs| == |names|
    ensures forall i | 0 <= i < |names| :: !cs[i].present && cs[i].name == names[i]
  {
    seq(|names|, i requires 0 <= i < |names| => Check(false, names[i]))
  }

  /** A run of unset fields reports every name, in order. */
  lemma {:induction false} MissingAllAbsent(names: seq<string>)
    ensures Missing(AllAbsent(names)) == names
  {
    if names != [] {
      assert AllAbsent(names)[1..] == AllAbsent(names[1..]);
      MissingAllAbsent(names[1..]);
    }
  }

  /** A set field followed by unset ones: only the unset names are reported. */
  lemma MissingAfterPresent(c: Check, rest: seq<string>)
    requires c.present
    ensures Missing([c] + AllAbsent(rest)) == rest
  {
    MissingConcat([c], AllAbsent(rest));
    MissingAllAbsent(rest);
    assert [c][1..] == [];
  }

  /** Two set fields, each followed by unset ones: the unset names are
      reported in order, the set ones skipped. */
  lemma MissingAroundPresent(c: Check, named: seq<string>, d: Check, rest: seq<string>)
    requires c.present && d.present
    ensures Missing([c] + AllAbsent(named) + [d] + AllAbsent(rest)) == named + rest
  {
    MissingAfterPresent(c, named);
    MissingAfterPresent(d, rest);
    MissingConcat([c] + AllAbsent(named), [d] + AllAbsent(rest));
    assert [c] + AllAbsent(named) + [d] + AllAbsent(rest) == ([c] + AllAbsent(named)) + ([d] + AllAbsent(rest));
  }

  /** The mutable collector. `checks` is the history of `field_check` calls
      that the real field `fields` summarises. */
  class FieldAggregator {
    var fields: Option<seq<string>>
    ghost var checks: seq<Check>

    ghost predicate Valid()
      reads this
    {
      fields == Run(checks)
    }

    /** `FieldAggregator::new()`: holds `None`. */
    constructor ()
      ensures Valid() && fields == None && checks == []
    {
      fields := None;
      checks := [];
    }

    /** `field_check`: an absent field's name is appended at the end, the list
        being created if needed; a present field leaves the aggregator as it
        was. */
    method FieldCheck<T>(field: Option<T>, name: string)
      requires Valid()
      modifies this
      ensures Valid()
      ensures checks == old(checks) + [Check(field.Some?, name)]
      ensures field.Some? ==> fields == old(fields)
      ensures field.None? ==> fields == Some(OrEmpty(old(fields)) + [name])
    {
      if field.None? {
        fields := Some(OrEmpty(fields) + [name]);
      }
      checks := checks + [Check(field.Some?, name)];
      assert checks[..|checks| - 1] == old(checks);
    }
  }
}
