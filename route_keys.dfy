/**
 * Route keys and the order-keeping list difference the stack view uses
 * three times: for the keys new in a pass, for the keys dropped in a pass,
 * and for removing a dismissed key from the mounted list.
 */
module RouteKeys {
  /** An opaque key the navigation state gives each route. */
  type RouteKey = string

  /** The keys occurring in a list. */
  function Elems(xs: seq<RouteKey>): (r: set<RouteKey>)
    ensures forall x :: x in r <==> x in xs
  {
    set x | x in xs
  }

  /**
   * The entries of `xs` that do not occur in `ys`, in the order of `xs`,
   * duplicates included: a filter of `xs` by "index in `ys` is -1".
   */
  function Without(xs: seq<RouteKey>, ys: seq<RouteKey>): (r: seq<RouteKey>)
    ensures |r| <= |xs|
    ensures forall x :: x in r <==> x in xs && x !in ys
  {
    if xs == [] then []
    else if xs[0] in ys then Without(xs[1..], ys)
    else [xs[0]] + Without(xs[1..], ys)
  }

  /** The filter distributes over concatenation, so it never reorders what it keeps. */
  lemma {:induction false} WithoutAppend(a: seq<RouteKey>, b: seq<RouteKey>, ys: seq<RouteKey>)
    ensures Without(a + b, ys) == Without(a, ys) + Without(b, ys)
  {
    if a == [] {
      assert a + b == b;
    } else {
      assert (a + b)[0] == a[0];
      assert (a + b)[1..] == a[1..] + b;
      WithoutAppend(a[1..], b, ys);
    }
  }

  /** A list none of whose entries occurs in `ys` comes back unchanged. */
  lemma {:induction false} WithoutDisjoint(xs: seq<RouteKey>, ys: seq<RouteKey>)
    requires forall x :: x in xs ==> x !in ys
    ensures Without(xs, ys) == xs
  {
    if xs != [] {
      assert xs[0] in xs;
      WithoutDisjoint(xs[1..], ys);
    }
  }

  /** A list all of whose entries occur in `ys` comes back empty. */
  lemma WithoutCovered(xs: seq<RouteKey>, ys: seq<RouteKey>)
    requires forall x :: x in xs ==> x in ys
    ensures Without(xs, ys) == []
  {
  }

  /** Filtering twice by the same list is filtering once. */
  lemma WithoutIdempotent(xs: seq<RouteKey>, ys: seq<RouteKey>)
    ensures Without(Without(xs, ys), ys) == Without(xs, ys)
  {
    WithoutDisjoint(Without(xs, ys), ys);
  }

  /**
   * Removing one key keeps every other entry, in order: the entries before
   * and after a given position are filtered independently.
   */
  lemma RemoveKeyKeepsOthers(xs: seq<RouteKey>, i: nat, k: RouteKey)
    requires i < |xs| && xs[i] != k
    ensures Without(xs, [k]) == Without(xs[..i], [k]) + ([xs[i]] + Without(xs[i + 1..], [k]))
  {
    var before, here, after := xs[..i], [xs[i]], xs[i + 1..];
    assert xs == before + (here + after);
    WithoutAppend(before, here + after, [k]);
    WithoutAppend(here, after, [k]);
    WithoutDisjoint(here, [k]);
  }
}
