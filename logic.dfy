/** The propositional AND/OR tree `Logical<T>` of `src/utils/logical.rs`,
    its two combinators and its `Display` rendering. */
module Logic {

  /** A formula over items of type `T`: a single item, a disjunction or a
      conjunction. The children are owned (boxed in the source). */
  datatype Logical<T> =
    | Unit(item: T)
    | Or(left: Logical<T>, right: Logical<T>)
    | And(left: Logical<T>, right: Logical<T>)
  {
    /** `a.or(b)`: a disjunction with `a` on the left, `b` on the right and
        nothing simplified. */
    function OrWith(other: Logical<T>): (r: Logical<T>)
      ensures r.Or? && r.left == this && r.right == other
      ensures r.Size() == this.Size() + other.Size() + 1
    {
      Or(this, other)
    }

    /** `a.and(b)`: a conjunction with `a` on the left, `b` on the right and
        nothing simplified. */
    function AndWith(other: Logical<T>): (r: Logical<T>)
      ensures r.And? && r.left == this && r.right == other
      ensures r.Size() == this.Size() + other.Size() + 1
    {
      And(this, other)
    }

    /** Number of nodes of the tree. */
    function Size(): nat
    {
      match this
      case Unit(_) => 1
      case Or(l, r) => l.Size() + r.Size() + 1
      case And(l, r) => l.Size() + r.Size() + 1
    }

    /** Number of `Or` and `And` nodes of the tree. */
    function BinaryNodes(): nat
    {
      match this
      case Unit(_) => 0
      case Or(l, r) => l.BinaryNodes() + r.BinaryNodes() + 1
      case And(l, r) => l.BinaryNodes() + r.BinaryNodes() + 1
    }
  }

  /** The truth value of `f` when exactly the items of `truth` hold. */
  function Holds<T>(f: Logical<T>, truth: set<T>): bool
  {
    match f
    case Unit(x) => x in truth
    case Or(l, r) => Holds(l, truth) || Holds(r, truth)
    case And(l, r) => Holds(l, truth) && Holds(r, truth)
  }

  /** The `Display` rendering, given the rendering `show` of an item. A
      compound formula is wrapped in one pair of parentheses, and each
      connective adds at least six characters (the parentheses and " or "
      or " and "). */
  function Render<T>(f: Logical<T>, show: T -> string): (r: string)
    ensures !f.Unit? ==> |r| >= 2 && r[0] == '(' && r[|r| - 1] == ')'
    ensures |r| >= 6 * f.BinaryNodes()
  {
    match f
    case Unit(x) => show(x)
    case Or(l, r) => "(" + Render(l, show) + " or " + Render(r, show) + ")"
    case And(l, r) => "(" + Render(l, show) + " and " + Render(r, show) + ")"
  }

  /** Occurrences of `c` in `s`. */
  function Count(c: char, s: string): nat
  {
    if s == [] then 0 else (if s[0] == c then 1 else 0) + Count(c, s[1..])
  }

  /** `s` holds as many `(` as `)`, and no prefix of `s` closes more than it
      has opened. */
  ghost predicate Balanced(s: string)
  {
    && Count('(', s) == Count(')', s)
    && forall k | 0 <= k <= |s| :: Count(')', s[..k]) <= Count('(', s[..k])
  }

  /** `show` never produces a parenthesis. */
  ghost predicate ParenFree<T(!new)>(show: T -> string)
  {
    forall x :: Count('(', show(x)) == 0 && Count(')', show(x)) == 0
  }

  lemma {:induction false} CountConcat(c: char, a: string, b: string)
    ensures Count(c, a + b) == Count(c, a) + Count(c, b)
  {
    if a != [] {
      assert (a + b)[1..] == a[1..] + b;
      CountConcat(c, a[1..], b);
    } else {
      assert a + b == b;
    }
  }

  /** A character that does not occur is counted zero times. */
  lemma {:induction false} CountAbsent(c: char, s: string)
    requires c !in s
    ensures Count(c, s) == 0
  {
    if s != [] {
      assert c !in s[1..] by {
        forall k | 0 <= k < |s[1..]| ensures s[1..][k] != c {
          assert s[1..][k] == s[k + 1];
        }
      }
      CountAbsent(c, s[1..]);
    }
  }

  lemma CountPrefix(c: char, s: string, k: nat)
    requires k <= |s|
    ensures Count(c, s[..k]) <= Count(c, s)
  {
    assert s == s[..k] + s[k..];
    CountConcat(c, s[..k], s[k..]);
  }

  lemma ParenFreeIsBalanced(s: string)
    requires Count('(', s) == 0 && Count(')', s) == 0
    ensures Balanced(s)
  {
    forall k | 0 <= k <= |s|
      ensures Count(')', s[..k]) <= Count('(', s[..k])
    {
      CountPrefix(')', s, k);
    }
  }

  lemma BalancedConcat(a: string, b: string)
    requires Balanced(a) && Balanced(b)
    ensures Balanced(a + b)
  {
    CountConcat('(', a, b);
    CountConcat(')', a, b);
    forall k | 0 <= k <= |a + b|
      ensures Count(')', (a + b)[..k]) <= Count('(', (a + b)[..k])
    {
      if k <= |a| {
        assert (a + b)[..k] == a[..k];
      } else {
        assert (a + b)[..k] == a + b[..k - |a|];
        CountConcat('(', a, b[..k - |a|]);
        CountConcat(')', a, b[..k - |a|]);
      }
    }
  }

  lemma BalancedWrap(x: string)
    requires Balanced(x)
    ensures Balanced("(" + x + ")")
  {
    var w := "(" + x + ")";
    CountConcat('(', "(", x);
    CountConcat(')', "(", x);
    CountConcat('(', "(" + x, ")");
    CountConcat(')', "(" + x, ")");
    forall k | 0 <= k <= |w|
      ensures Count(')', w[..k]) <= Count('(', w[..k])
    {
      if 1 <= k <= |x| + 1 {
        assert w[..k] == "(" + x[..k - 1];
        CountConcat('(', "(", x[..k - 1]);
        CountConcat(')', "(", x[..k - 1]);
      } else if k == |w| {
        assert w[..k] == w;
      }
    }
  }

  /** Rendering puts exactly one pair of parentheses around each `Or` and
      `And` node, provided the items render without parentheses. */
  lemma {:induction false} RenderParenCount<T(!new)>(f: Logical<T>, show: T -> string)
    requires ParenFree(show)
    ensures Count('(', Render(f, show)) == f.BinaryNodes()
    ensures Count(')', Render(f, show)) == f.BinaryNodes()
  {
    match f
    case Unit(x) =>
    case Or(l, r) =>
      RenderParenCount(l, show);
      RenderParenCount(r, show);
      ConnectiveCount(Render(l, show), " or ", Render(r, show));
    case And(l, r) =>
      RenderParenCount(l, show);
      RenderParenCount(r, show);
      ConnectiveCount(Render(l, show), " and ", Render(r, show));
  }

  lemma ConnectiveCount(a: string, op: string, b: string)
    requires Count('(', op) == 0 && Count(')', op) == 0
    ensures Count('(', "(" + a + op + b + ")") == Count('(', a) + Count('(', b) + 1
    ensures Count(')', "(" + a + op + b + ")") == Count(')', a) + Count(')', b) + 1
  {
    CountConcat('(', "(", a);
    CountConcat('(', "(" + a, op);
    CountConcat('(', "(" + a + op, b);
    CountConcat('(', "(" + a + op + b, ")");
    CountConcat(')', "(", a);
    CountConcat(')', "(" + a, op);
    CountConcat(')', "(" + a + op, b);
    CountConcat(')', "(" + a + op + b, ")");
  }

  /** Every rendering is well parenthesised, provided the items render
      without parentheses. */
  lemma {:induction false} RenderBalanced<T(!new)>(f: Logical<T>, show: T -> string)
    requires ParenFree(show)
    ensures Balanced(Render(f, show))
  {
    match f
    case Unit(x) =>
      ParenFreeIsBalanced(show(x));
    case Or(l, r) =>
      RenderBalanced(l, show);
      RenderBalanced(r, show);
      ConnectiveBalanced(Render(l, show), " or ", Render(r, show));
    case And(l, r) =>
      RenderBalanced(l, show);
      RenderBalanced(r, show);
      ConnectiveBalanced(Render(l, show), " and ", Render(r, show));
  }

  lemma ConnectiveBalanced(a: string, op: string, b: string)
    requires Balanced(a) && Balanced(b)
    requires Count('(', op) == 0 && Count(')', op) == 0
    ensures Balanced("(" + a + op + b + ")")
  {
    ParenFreeIsBalanced(op);
    BalancedConcat(a, op);
    BalancedConcat(a + op, b);
    BalancedWrap(a + op + b);
    assert "(" + a + op + b + ")" == "(" + (a + op + b) + ")";
  }

  /** The three rendering rules, as the source states them. */
  lemma RenderRules<T>(x: T, l: Logical<T>, r: Logical<T>, show: T -> string)
    ensures Render(Unit(x), show) == show(x)
    ensures Render(l.OrWith(r), show) == "(" + Render(l, show) + " or " + Render(r, show) + ")"
    ensures Render(l.AndWith(r), show) == "(" + Render(l, show) + " and " + Render(r, show) + ")"
  {
  }
}
