/**
 * Conan's `Version` ordering, abstracted to numeric components: versions are
 * compared component by component from the left, and a missing component
 * counts as 0 (Conan ignores trailing zeros, so "9" and "9.0" are equal).
 */
module Versions {

  type Version = seq<nat>

  /** Component `i` of `v`, 0 past its end. */
  function Component(v: Version, i: nat): nat {
    if i < |v| then v[i] else 0
  }

  function Tail(v: Version): Version {
    if v == [] then [] else v[1..]
  }

  /** `Version(a) < Version(b)`. */
  predicate Less(a: Version, b: Version)
    ensures Less(a, b) ==> a != b
    decreases |a| + |b|
  {
    if a == [] && b == [] then false
    else
      Component(a, 0) < Component(b, 0) ||
      (Component(a, 0) == Component(b, 0) && Less(Tail(a), Tail(b)))
  }

  /** `a` and `b` agree on every component before index `k`. */
  ghost predicate AgreeBelow(a: Version, b: Version, k: nat) {
    forall i :: 0 <= i < k ==> Component(a, i) == Component(b, i)
  }

  /** The reference definition: `a` is below `b` at the first component where they differ. */
  ghost predicate BelowAtFirstDifference(a: Version, b: Version) {
    exists k: nat :: AgreeBelow(a, b, k) && Component(a, k) < Component(b, k)
  }

  lemma ComponentOfTail(v: Version, i: nat)
    ensures Component(Tail(v), i) == Component(v, i + 1)
  {
  }

  /** `Less` is exactly "smaller at the first differing component". */
  lemma {:induction false} LessIsFirstDifference(a: Version, b: Version)
    ensures Less(a, b) <==> BelowAtFirstDifference(a, b)
    decreases |a| + |b|
  {
    if a == [] && b == [] {
      assert forall k: nat :: Component(a, k) == 0 == Component(b, k);
    } else {
      LessIsFirstDifference(Tail(a), Tail(b));
      if Less(a, b) {
        if Component(a, 0) < Component(b, 0) {
          assert AgreeBelow(a, b, 0);
        } else {
          var k: nat :| AgreeBelow(Tail(a), Tail(b), k) && Component(Tail(a), k) < Component(Tail(b), k);
          forall i | 0 <= i < k + 1 ensures Component(a, i) == Component(b, i) {
            if i > 0 {
              ComponentOfTail(a, i - 1);
              ComponentOfTail(b, i - 1);
            }
          }
          ComponentOfTail(a, k);
          ComponentOfTail(b, k);
          assert AgreeBelow(a, b, k + 1);
        }
      }
      if BelowAtFirstDifference(a, b) {
        var k: nat :| AgreeBelow(a, b, k) && Component(a, k) < Component(b, k);
        if k > 0 {
          assert Component(a, 0) == Component(b, 0);
          forall i | 0 <= i < k - 1 ensures Component(Tail(a), i) == Component(Tail(b), i) {
            ComponentOfTail(a, i);
            ComponentOfTail(b, i);
          }
          ComponentOfTail(a, k - 1);
          ComponentOfTail(b, k - 1);
          assert AgreeBelow(Tail(a), Tail(b), k - 1);
        }
      }
    }
  }

  lemma {:induction false} LessIrreflexive(a: Version)
    ensures !Less(a, a)
    decreases |a|
  {
    if a != [] {
      LessIrreflexive(Tail(a));
    }
  }

  lemma {:induction false} LessTransitive(a: Version, b: Version, c: Version)
    requires Less(a, b) && Less(b, c)
    ensures Less(a, c)
    decreases |a| + |b| + |c|
  {
    if Component(a, 0) == Component(b, 0) == Component(c, 0) {
      LessTransitive(Tail(a), Tail(b), Tail(c));
    }
  }

  /** Whatever `b` is, it lies above `a` or below `c` when `a` lies below `c`. */
  lemma {:induction false} LessSplits(a: Version, b: Version, c: Version)
    requires Less(a, c)
    ensures Less(a, b) || Less(b, c)
    decreases |a| + |b| + |c|
  {
    if Component(a, 0) == Component(b, 0) == Component(c, 0) {
      LessSplits(Tail(a), Tail(b), Tail(c));
    }
  }

  /** Appending a zero component does not move a version in the order. */
  lemma {:induction false} TrailingZeroIgnored(a: Version, b: Version)
    ensures Less(a + [0], b) <==> Less(a, b)
    ensures Less(b, a + [0]) <==> Less(b, a)
    decreases |a| + |b|
  {
    if a == [] {
      assert Tail([0]) == [];
    } else {
      assert Tail(a + [0]) == Tail(a) + [0];
      TrailingZeroIgnored(Tail(a), Tail(b));
    }
  }
}
