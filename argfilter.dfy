/**
 * `tuple(filter(None, values))`, which `transfer_sign_submit` uses to turn
 * its keyword values into `transfer`'s positional arguments: it keeps the
 * truthy values in order and drops None, False, 0, "" and empty containers.
 */
module ArgFilter {
  import opened JsonValues

  /** The truthy values of `xs`, in their original order. */
  function Filter(xs: seq<Json>): (r: seq<Json>)
    ensures |r| <= |xs|
    ensures forall k :: 0 <= k < |r| ==> Truthy(r[k])
  {
    if xs == [] then []
    else
      var kept := Filter(xs[..|xs| - 1]);
      if Truthy(xs[|xs| - 1]) then kept + [xs[|xs| - 1]] else kept
  }

  /** The positions of `xs` whose values `Filter` keeps. */
  function Kept(xs: seq<Json>): seq<nat>
  {
    if xs == [] then []
    else Kept(xs[..|xs| - 1]) + (if Truthy(xs[|xs| - 1]) then [|xs| - 1] else [])
  }

  /** How many values of `xs` `Filter` drops. */
  function CountFalsy(xs: seq<Json>): nat
  {
    if xs == [] then 0
    else CountFalsy(xs[..|xs| - 1]) + (if Truthy(xs[|xs| - 1]) then 0 else 1)
  }

  /** The k-th value `Filter` keeps is the value at the k-th kept position. */
  lemma {:induction false} KeptValues(xs: seq<Json>)
    ensures |Kept(xs)| == |Filter(xs)|
    ensures forall k :: 0 <= k < |Kept(xs)| ==> Kept(xs)[k] < |xs| && Filter(xs)[k] == xs[Kept(xs)[k]]
  {
    if xs != [] {
      var init := xs[..|xs| - 1];
      KeptValues(init);
      forall k | 0 <= k < |Kept(init)| ensures init[Kept(init)[k]] == xs[Kept(init)[k]] { }
    }
  }

  /** The kept positions increase, and lie inside `xs`. */
  lemma {:induction false} KeptIncreasing(xs: seq<Json>)
    ensures forall k :: 0 <= k < |Kept(xs)| ==> Kept(xs)[k] < |xs|
    ensures forall k, l :: 0 <= k < l < |Kept(xs)| ==> Kept(xs)[k] < Kept(xs)[l]
  {
    if xs != [] {
      KeptIncreasing(xs[..|xs| - 1]);
    }
  }

  /** A position is kept if and only if its value is truthy. */
  lemma {:induction false} KeptIffTruthy(xs: seq<Json>)
    ensures forall i :: 0 <= i < |xs| ==> (Truthy(xs[i]) <==> i in Kept(xs))
  {
    if xs != [] {
      var init := xs[..|xs| - 1];
      KeptIffTruthy(init);
      KeptIncreasing(init);
      forall i | 0 <= i < |xs| ensures Truthy(xs[i]) <==> i in Kept(xs) {
        if i < |init| {
          assert init[i] == xs[i];
          assert i != |xs| - 1;
        } else {
          assert |xs| - 1 !in Kept(init);
        }
      }
    }
  }

  /**
   * `Filter` keeps exactly the truthy values, in their original relative
   * order: its k-th value is the value at the k-th kept position, the kept
   * positions increase, and a position is kept if and only if its value is
   * truthy.
   */
  lemma FilterSelectsKept(xs: seq<Json>)
    ensures |Kept(xs)| == |Filter(xs)|
    ensures forall k :: 0 <= k < |Kept(xs)| ==> Kept(xs)[k] < |xs| && Filter(xs)[k] == xs[Kept(xs)[k]]
    ensures forall k, l :: 0 <= k < l < |Kept(xs)| ==> Kept(xs)[k] < Kept(xs)[l]
    ensures forall i :: 0 <= i < |xs| ==> (Truthy(xs[i]) <==> i in Kept(xs))
  {
    KeptValues(xs);
    KeptIncreasing(xs);
    KeptIffTruthy(xs);
  }

  /** Every value is either kept or dropped. */
  lemma {:induction false} FilterLength(xs: seq<Json>)
    ensures |Filter(xs)| + CountFalsy(xs) == |xs|
  {
    if xs != [] {
      FilterLength(xs[..|xs| - 1]);
    }
  }

  /** Nothing moves exactly when nothing is dropped. */
  lemma {:induction false} FilterIdentityIff(xs: seq<Json>)
    ensures Filter(xs) == xs <==> forall i :: 0 <= i < |xs| ==> Truthy(xs[i])
  {
    if xs != [] {
      var init := xs[..|xs| - 1];
      FilterIdentityIff(init);
      if forall i :: 0 <= i < |xs| ==> Truthy(xs[i]) {
        assert forall i :: 0 <= i < |init| ==> Truthy(init[i]) by {
          forall i | 0 <= i < |init| ensures Truthy(init[i]) { assert init[i] == xs[i]; }
        }
        assert xs == init + [xs[|xs| - 1]];
      } else {
        var i :| 0 <= i < |xs| && !Truthy(xs[i]);
        assert Filter(xs) != xs;
      }
    }
  }

  /** Nothing is kept exactly when every value is falsy. */
  lemma FilterNoneIff(xs: seq<Json>)
    ensures Filter(xs) == [] <==> forall i :: 0 <= i < |xs| ==> !Truthy(xs[i])
  {
    FilterSelectsKept(xs);
    if |Kept(xs)| > 0 {
      assert Kept(xs)[0] in Kept(xs);
    }
  }

  /** Filtering a concatenation filters each part. */
  lemma {:induction false} FilterAppend(xs: seq<Json>, ys: seq<Json>)
    ensures Filter(xs + ys) == Filter(xs) + Filter(ys)
    decreases |ys|
  {
    if ys == [] {
      assert xs + ys == xs;
    } else {
      var init := ys[..|ys| - 1];
      FilterAppend(xs, init);
      assert (xs + ys)[..|xs + ys| - 1] == xs + init;
    }
  }

  /** Exactly k kept values precede the k-th kept position. */
  lemma {:induction false} KeptBefore(xs: seq<Json>, k: nat)
    requires k < |Kept(xs)|
    ensures Kept(xs)[k] <= |xs|
    ensures |Filter(xs[..Kept(xs)[k]])| == k
  {
    KeptValues(xs);
    var init := xs[..|xs| - 1];
    KeptValues(init);
    var p := Kept(xs)[k];
    if k < |Kept(init)| {
      assert Kept(xs)[k] == Kept(init)[k];
      KeptBefore(init, k);
      assert xs[..p] == init[..p];
    } else {
      assert p == |xs| - 1;
      assert xs[..p] == init;
    }
  }

  /**
   * The k-th value `Filter` keeps ends up in slot k although it stood in
   * slot k + d, where d is the number of values dropped before it: every
   * dropped value shifts the later ones one slot to the left.
   */
  lemma ShiftedBy(xs: seq<Json>, k: nat)
    requires k < |Filter(xs)|
    ensures |Kept(xs)| == |Filter(xs)|
    ensures Kept(xs)[k] < |xs| && Filter(xs)[k] == xs[Kept(xs)[k]]
    ensures Kept(xs)[k] == k + CountFalsy(xs[..Kept(xs)[k]])
  {
    FilterSelectsKept(xs);
    KeptBefore(xs, k);
    FilterLength(xs[..Kept(xs)[k]]);
  }
}
