/**
 * Slice selection on a donut chart: the slices laid end to end by weight, each covering the
 * half-open range `[acc, acc + weight)` of the running total `acc`.
 */
module Cumulative {
  import opened Wrappers

  /** The running total before slice `i`. */
  function PrefixSum(ws: seq<real>, i: nat): real
    requires i <= |ws|
  {
    if i == 0 then 0.0 else PrefixSum(ws, i - 1) + ws[i - 1]
  }

  /** `a` falls in slice `i`'s range. */
  predicate Hit(ws: seq<real>, a: real, i: nat)
    requires i < |ws|
  {
    PrefixSum(ws, i) <= a < PrefixSum(ws, i + 1)
  }

  /** `r` is what the selection loop answers: the first slice hit, or none when no slice is. */
  ghost predicate IsFirstHit(ws: seq<real>, a: real, r: Option<nat>) {
    match r
    case None => forall j :: 0 <= j < |ws| ==> !Hit(ws, a, j)
    case Some(i) => i < |ws| && Hit(ws, a, i) && forall j :: 0 <= j < i ==> !Hit(ws, a, j)
  }

  ghost predicate NonNegative(ws: seq<real>) {
    forall i :: 0 <= i < |ws| ==> ws[i] >= 0.0
  }

  lemma {:induction false} PrefixMonotone(ws: seq<real>, i: nat, j: nat)
    requires NonNegative(ws) && i <= j <= |ws|
    ensures PrefixSum(ws, i) <= PrefixSum(ws, j)
    decreases j
  {
    if i < j {
      PrefixMonotone(ws, i, j - 1);
    }
  }

  /** With non-negative weights the ranges do not overlap, so at most one slice is hit. */
  lemma HitUnique(ws: seq<real>, a: real, i: nat, j: nat)
    requires NonNegative(ws) && i < |ws| && j < |ws|
    requires Hit(ws, a, i) && Hit(ws, a, j)
    ensures i == j
  {
    if i < j {
      PrefixMonotone(ws, i + 1, j);
    } else if j < i {
      PrefixMonotone(ws, j + 1, i);
    }
  }

  /** With non-negative weights the ranges cover `[0, total)` without gaps. */
  lemma {:induction false} CoverIndex(ws: seq<real>, a: real, n: nat) returns (j: nat)
    requires NonNegative(ws) && n <= |ws| && 0.0 <= a < PrefixSum(ws, n)
    ensures j < n && Hit(ws, a, j)
  {
    if a < PrefixSum(ws, n - 1) {
      j := CoverIndex(ws, a, n - 1);
    } else {
      j := n - 1;
    }
  }

  /** Outside `[0, total)` no slice is hit. */
  lemma OutsideNoHit(ws: seq<real>, a: real)
    requires NonNegative(ws) && (a < 0.0 || a >= PrefixSum(ws, |ws|))
    ensures forall j :: 0 <= j < |ws| ==> !Hit(ws, a, j)
  {
    forall j | 0 <= j < |ws| ensures !Hit(ws, a, j) {
      PrefixMonotone(ws, 0, j);
      PrefixMonotone(ws, j + 1, |ws|);
    }
  }

  /**
   * With non-negative weights the loop's answer is the one slice whose range holds `a`:
   * there is one exactly when `0 <= a < total`, and no other slice is hit.
   */
  lemma FirstHitIsOnlyHit(ws: seq<real>, a: real, r: Option<nat>)
    requires NonNegative(ws) && IsFirstHit(ws, a, r)
    ensures r.Some? <==> 0.0 <= a < PrefixSum(ws, |ws|)
    ensures r.Some? ==> forall j :: 0 <= j < |ws| && Hit(ws, a, j) ==> j == r.value
  {
    if 0.0 <= a < PrefixSum(ws, |ws|) {
      var j := CoverIndex(ws, a, |ws|);
    } else {
      OutsideNoHit(ws, a);
    }
    if r.Some? {
      forall j | 0 <= j < |ws| && Hit(ws, a, j) ensures j == r.value {
        HitUnique(ws, a, j, r.value);
      }
    }
  }
}
