/**
 Chains of groups separated by white space, over positions: `space(k)` says that position `k` is
 white space, and `group(a, b)` that the positions from `a` up to `b` form one group.
 */
module Chains {
  ghost predicate Spaces(space: nat -> bool, i: nat, j: nat) {
    forall k: nat :: i <= k < j ==> space(k)
  }

  /** The stretch from `i` up to `n` is a chain, read from the left. */
  ghost predicate Chain(space: nat -> bool, group: (nat, nat) -> bool, i: nat, n: nat)
    decreases n - i
  {
    i <= n && (Spaces(space, i, n) || exists a: nat, b: nat :: Link(space, group, i, a, b, n) && Chain(space, group, b, n))
  }

  ghost predicate Link(space: nat -> bool, group: (nat, nat) -> bool, i: nat, a: nat, b: nat, n: nat) {
    i <= a < b <= n && Spaces(space, i, a) && group(a, b)
  }

  /** A group ends in something solid, and where it ends tells where it begins. */
  ghost predicate Bracketed(space: nat -> bool, group: (nat, nat) -> bool) {
    && (forall a: nat, b: nat :: group(a, b) ==> a < b && !space(b - 1))
    && (forall a: nat, c: nat, b: nat :: group(a, b) && group(c, b) ==> a == c)
  }

  /** A chain may be extended on the right. */
  lemma {:induction false} ChainExtends(
    space: nat -> bool, group: (nat, nat) -> bool, i: nat, n: nat, a: nat, b: nat)
    requires Chain(space, group, i, n) && n <= a < b && Spaces(space, n, a) && group(a, b)
    ensures Chain(space, group, i, b)
    decreases n - i
  {
    if Spaces(space, i, n) {
      assert Link(space, group, i, a, b, b) && Chain(space, group, b, b);
    } else {
      var c: nat, d: nat :| Link(space, group, i, c, d, n) && Chain(space, group, d, n);
      ChainExtends(space, group, d, n, a, b);
      assert Link(space, group, i, c, d, b) && Chain(space, group, d, b);
    }
  }

  /** A chain that ends in something solid ends in a group. */
  lemma {:induction false} ChainEndsInGroup(
    space: nat -> bool, group: (nat, nat) -> bool, i: nat, n: nat) returns (a: nat)
    requires Chain(space, group, i, n) && i < n && !space(n - 1)
    ensures i <= a < n && group(a, n) && Chain(space, group, i, a)
    decreases n - i
  {
    var c: nat, d: nat :| Link(space, group, i, c, d, n) && Chain(space, group, d, n);
    if d == n {
      a := c;
    } else {
      a := ChainEndsInGroup(space, group, d, n);
      assert Link(space, group, i, c, d, a) && Chain(space, group, d, a);
    }
  }

  /** Trailing white space is no part of a chain's groups. */
  lemma {:induction false} ChainTrims(space: nat -> bool, group: (nat, nat) -> bool, i: nat, n: nat, m: nat)
    requires Bracketed(space, group) && Chain(space, group, i, n)
    requires i <= m <= n && Spaces(space, m, n) && (i < m ==> !space(m - 1))
    ensures Chain(space, group, i, m)
    decreases n - i
  {
    if i < m {
      assert space(m - 1) || !Spaces(space, i, n);
      var a: nat, b: nat :| Link(space, group, i, a, b, n) && Chain(space, group, b, n);
      assert b <= m;
      ChainTrims(space, group, b, n, m);
      assert Link(space, group, i, a, b, m) && Chain(space, group, b, m);
    }
  }

  /** Only the positions of the stretch matter. */
  lemma {:induction false} ChainAgrees(
    space: nat -> bool, group: (nat, nat) -> bool, space': nat -> bool, group': (nat, nat) -> bool, i: nat, n: nat)
    requires forall k: nat :: k < n ==> space(k) == space'(k)
    requires forall a: nat, b: nat :: a < b <= n ==> group(a, b) == group'(a, b)
    requires Chain(space, group, i, n)
    ensures Chain(space', group', i, n)
    decreases n - i
  {
    if !Spaces(space, i, n) {
      var a: nat, b: nat :| Link(space, group, i, a, b, n) && Chain(space, group, b, n);
      ChainAgrees(space, group, space', group', b, n);
      assert Link(space', group', i, a, b, n) && Chain(space', group', b, n);
    }
  }

  /** From `r` on there is only a chain, and nowhere before. */
  ghost predicate Core(space: nat -> bool, group: (nat, nat) -> bool, n: nat, r: nat) {
    Chain(space, group, r, n) && forall k: nat :: Chain(space, group, k, n) ==> r <= k
  }

  /** Removing the last group and the white space before it keeps the core. */
  lemma CoreOfStripped(space: nat -> bool, group: (nat, nat) -> bool, n: nat, i: nat, m: nat, r: nat)
    requires Bracketed(space, group) && group(i, n)
    requires m <= i && Spaces(space, m, i) && (m > 0 ==> !space(m - 1))
    requires Core(space, group, m, r)
    ensures Core(space, group, n, r)
  {
    ChainExtends(space, group, r, m, i, n);
    forall k: nat | Chain(space, group, k, n) ensures r <= k {
      if k < m {
        var a := ChainEndsInGroup(space, group, k, n);
        ChainTrims(space, group, k, i, m);
      }
    }
  }

  /** Without a last group, nothing can be removed. */
  lemma CoreOfBare(space: nat -> bool, group: (nat, nat) -> bool, n: nat)
    requires n > 0 ==> !space(n - 1)
    requires forall a: nat :: !group(a, n)
    ensures Core(space, group, n, n)
  {
    forall k: nat | Chain(space, group, k, n) ensures n <= k {
      if k < n {
        var a := ChainEndsInGroup(space, group, k, n);
      }
    }
  }

  /** Every solid position of a chain lies in one of its groups. */
  lemma {:induction false} ChainCovers(
    space: nat -> bool, group: (nat, nat) -> bool, i: nat, n: nat, k: nat) returns (a: nat, b: nat)
    requires Chain(space, group, i, n) && i <= k < n && !space(k)
    ensures i <= a <= k < b <= n && group(a, b)
    decreases n - i
  {
    a, b :| Link(space, group, i, a, b, n) && Chain(space, group, b, n);
    if k >= b {
      a, b := ChainCovers(space, group, b, n, k);
    }
  }
}
