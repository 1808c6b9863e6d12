/**
 * The proximity filter that service.go and handlers.go repeat for each entity
 * type: walk the loaded rows in order and append every row whose location is
 * present and whose distance from the centre is at most the radius.
 * `loc` says how a record exposes its coordinates (None = unlocated).
 */
module Proximity {
  import opened Wrappers
  import opened Geo

  /** The record is located and lies inside the circle; the boundary is inclusive. */
  predicate Within<T>(x: T, loc: T -> Option<Point>, c: Circle, dist: Distance) {
    match loc(x)
    case None => false
    case Some(p) => dist(c.center, p) <= c.radius
  }

  /** The rows `FilterByRadius` keeps, as a function; defined from the back like an append loop. */
  function Filtered<T>(xs: seq<T>, loc: T -> Option<Point>, c: Circle, dist: Distance): (r: seq<T>)
    ensures |r| <= |xs|
  {
    if xs == [] then []
    else
      var rest := Filtered(xs[..|xs| - 1], loc, c, dist);
      if Within(xs[|xs| - 1], loc, c, dist) then rest + [xs[|xs| - 1]] else rest
  }

  /** The append loop over the loaded rows. */
  method FilterByRadius<T>(xs: seq<T>, loc: T -> Option<Point>, c: Circle, dist: Distance)
    returns (nearby: seq<T>)
    ensures nearby == Filtered(xs, loc, c, dist)
  {
    nearby := [];
    var i := 0;
    while i < |xs|
      invariant 0 <= i <= |xs|
      invariant nearby == Filtered(xs[..i], loc, c, dist)
    {
      var x := xs[i];
      assert xs[..i + 1][..i] == xs[..i];
      match loc(x) {
        case Some(p) =>
          if dist(c.center, p) <= c.radius {
            nearby := nearby + [x];
          }
        case None =>
      }
      i := i + 1;
    }
    assert xs[..i] == xs;
  }

  /** `r` is the subsequence of `xs` taken at the strictly increasing positions `idx`. */
  ghost predicate SelectsAt<T>(r: seq<T>, xs: seq<T>, idx: seq<nat>) {
    && |idx| == |r|
    && (forall k :: 0 <= k < |idx| ==> idx[k] < |xs| && r[k] == xs[idx[k]])
    && (forall k, l :: 0 <= k < l < |idx| ==> idx[k] < idx[l])
  }

  /**
   * The filter result is exactly the order-preserving subsequence of `xs` at
   * the positions whose record is within the circle.
   */
  lemma {:induction false} FilteredPositions<T>(xs: seq<T>, loc: T -> Option<Point>, c: Circle, dist: Distance)
    returns (idx: seq<nat>)
    ensures SelectsAt(Filtered(xs, loc, c, dist), xs, idx)
    ensures forall j :: 0 <= j < |xs| ==> (j in idx <==> Within(xs[j], loc, c, dist))
  {
    if xs == [] {
      idx := [];
    } else {
      var n := |xs| - 1;
      var front := xs[..n];
      var idx' := FilteredPositions(front, loc, c, dist);
      var rest := Filtered(front, loc, c, dist);
      if Within(xs[n], loc, c, dist) {
        idx := idx' + [n];
        assert Filtered(xs, loc, c, dist) == rest + [xs[n]];
      } else {
        idx := idx';
      }
      forall j | 0 <= j < n
        ensures (j in idx <==> Within(xs[j], loc, c, dist))
      {
        assert front[j] == xs[j];
      }
    }
  }

  /** A record is kept iff it occurs in the input and is within the circle. */
  lemma {:induction false} FilteredMembership<T>(xs: seq<T>, loc: T -> Option<Point>, c: Circle, dist: Distance, x: T)
    ensures x in Filtered(xs, loc, c, dist) <==> x in xs && Within(x, loc, c, dist)
  {
    if xs != [] {
      var n := |xs| - 1;
      FilteredMembership(xs[..n], loc, c, dist, x);
      assert xs == xs[..n] + [xs[n]];
    }
  }

  /** Filtering distributes over concatenation: relative order is never changed. */
  lemma {:induction false} FilteredAppend<T>(a: seq<T>, b: seq<T>, loc: T -> Option<Point>, c: Circle, dist: Distance)
    ensures Filtered(a + b, loc, c, dist) == Filtered(a, loc, c, dist) + Filtered(b, loc, c, dist)
  {
    if b == [] {
      assert a + b == a;
    } else {
      var n := |b| - 1;
      FilteredAppend(a, b[..n], loc, c, dist);
      assert (a + b)[..|a + b| - 1] == a + b[..n];
      assert (a + b)[|a + b| - 1] == b[n];
    }
  }

  /** When every record is within the circle, the whole input comes back in order. */
  lemma {:induction false} FilteredKeepsAll<T>(xs: seq<T>, loc: T -> Option<Point>, c: Circle, dist: Distance)
    requires forall i :: 0 <= i < |xs| ==> Within(xs[i], loc, c, dist)
    ensures Filtered(xs, loc, c, dist) == xs
  {
    if xs != [] {
      var n := |xs| - 1;
      FilteredKeepsAll(xs[..n], loc, c, dist);
      assert xs[..n] + [xs[n]] == xs;
    }
  }

  /** `strict` admits fewer locations than `loose` and agrees with it wherever it admits one. */
  ghost predicate Stricter<T(!new)>(strict: T -> Option<Point>, loose: T -> Option<Point>) {
    forall x :: strict(x).Some? ==> loose(x) == strict(x)
  }

  /**
   * Narrowing: filtering with a looser policy and a larger radius first, then
   * with a stricter policy and a smaller radius around the same centre, is the
   * same as the second filter alone.
   */
  lemma {:induction false} FilteredNarrowing<T(!new)>(xs: seq<T>, strict: T -> Option<Point>, loose: T -> Option<Point>,
                                                      inner: Circle, outer: Circle, dist: Distance)
    requires Stricter(strict, loose)
    requires inner.center == outer.center && inner.radius <= outer.radius
    ensures Filtered(Filtered(xs, loose, outer, dist), strict, inner, dist) == Filtered(xs, strict, inner, dist)
  {
    if xs != [] {
      var n := |xs| - 1;
      FilteredNarrowing(xs[..n], strict, loose, inner, outer, dist);
      var once := Filtered(xs[..n], loose, outer, dist);
      if Within(xs[n], loose, outer, dist) {
        FilteredAppend(once, [xs[n]], strict, inner, dist);
      } else {
        assert !Within(xs[n], strict, inner, dist);
      }
    }
  }

  /** Filtering twice with the same policy and circle changes nothing. */
  lemma {:induction false} FilteredIdempotent<T(!new)>(xs: seq<T>, loc: T -> Option<Point>, c: Circle, dist: Distance)
    ensures Filtered(Filtered(xs, loc, c, dist), loc, c, dist) == Filtered(xs, loc, c, dist)
  {
    FilteredNarrowing(xs, loc, loc, c, c, dist);
  }
}
