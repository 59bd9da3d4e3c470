/** Finite sums over sequences, used to count tokens, buffers and remaining work. */
module Sums {
  import opened Arithmetic

  function Total(xs: seq<int>): int {
    if xs == [] then 0 else Total(xs[..|xs| - 1]) + xs[|xs| - 1]
  }

  /** Changing one entry moves the total by the change of that entry. */
  lemma {:induction false} TotalChange(xs: seq<int>, ys: seq<int>, i: nat)
    requires |xs| == |ys| && i < |xs|
    requires forall j :: 0 <= j < |xs| && j != i ==> xs[j] == ys[j]
    ensures Total(ys) == Total(xs) - xs[i] + ys[i]
  {
    var n := |xs| - 1;
    if i == n {
      assert xs[..n] == ys[..n];
    } else {
      TotalChange(xs[..n], ys[..n], i);
    }
  }

  lemma {:induction false} TotalBounds(xs: seq<int>, lo: int, hi: int)
    requires forall j :: 0 <= j < |xs| ==> lo <= xs[j] <= hi
    ensures lo * |xs| <= Total(xs) <= hi * |xs|
  {
    if xs != [] {
      TotalBounds(xs[..|xs| - 1], lo, hi);
    }
  }

  /** A total of 0/1 entries reaches the length only when every entry is 1. */
  lemma {:induction false} TotalFull(xs: seq<int>)
    requires forall j :: 0 <= j < |xs| ==> 0 <= xs[j] <= 1
    ensures Total(xs) == |xs| <==> forall j :: 0 <= j < |xs| ==> xs[j] == 1
  {
    if xs != [] {
      var n := |xs| - 1;
      TotalFull(xs[..n]);
      TotalBounds(xs[..n], 0, 1);
      assert forall j :: 0 <= j < n ==> xs[..n][j] == xs[j];
    }
  }

  /** One missing token leaves room for at least one more. */
  lemma TotalHole(xs: seq<int>, i: nat)
    requires forall j :: 0 <= j < |xs| ==> 0 <= xs[j] <= 1
    requires i < |xs| && xs[i] == 0
    ensures Total(xs) <= |xs| - 1
  {
    TotalFull(xs);
    TotalBounds(xs, 0, 1);
  }

  lemma TotalTwoHoles(xs: seq<int>, i: nat, k: nat)
    requires forall j :: 0 <= j < |xs| ==> 0 <= xs[j] <= 1
    requires i < |xs| && k < |xs| && i != k && xs[i] == 0 && xs[k] == 0
    ensures Total(xs) <= |xs| - 2
  {
    TotalChange(xs, xs[i := 1], i);
    TotalHole(xs[i := 1], k);
  }

  /** A positive entry makes a total of non-negative entries positive. */
  lemma TotalAtLeast(xs: seq<int>, i: nat)
    requires forall j :: 0 <= j < |xs| ==> 0 <= xs[j]
    requires i < |xs|
    ensures xs[i] <= Total(xs)
  {
    TotalChange(xs, xs[i := 0], i);
    TotalNonNegative(xs[i := 0]);
  }

  lemma {:induction false} TotalNonNegative(xs: seq<int>)
    requires forall j :: 0 <= j < |xs| ==> 0 <= xs[j]
    ensures 0 <= Total(xs)
  {
    if xs != [] {
      TotalNonNegative(xs[..|xs| - 1]);
    }
  }

  lemma {:induction false} TotalZero(xs: seq<int>)
    requires forall j :: 0 <= j < |xs| ==> xs[j] == 0
    ensures Total(xs) == 0
  {
    if xs != [] {
      TotalZero(xs[..|xs| - 1]);
    }
  }

  lemma {:induction false} TotalConst(xs: seq<int>, k: int)
    requires forall j :: 0 <= j < |xs| ==> xs[j] == k
    ensures Total(xs) == |xs| * k
  {
    if xs != [] {
      TotalConst(xs[..|xs| - 1], k);
      ProductStep(|xs| - 1, k);
    }
  }

  lemma {:induction false} TotalAdd(xs: seq<int>, ys: seq<int>, zs: seq<int>)
    requires |xs| == |ys| == |zs| && forall j :: 0 <= j < |xs| ==> zs[j] == xs[j] + ys[j]
    ensures Total(zs) == Total(xs) + Total(ys)
  {
    if xs != [] {
      var n := |xs| - 1;
      TotalAdd(xs[..n], ys[..n], zs[..n]);
    }
  }

  lemma {:induction false} TotalCap(xs: seq<int>, k: int)
    requires forall j :: 0 <= j < |xs| ==> xs[j] <= k
    ensures Total(xs) <= |xs| * k
    ensures Total(xs) == |xs| * k ==> forall j :: 0 <= j < |xs| ==> xs[j] == k
  {
    if xs != [] {
      var n := |xs| - 1;
      TotalCap(xs[..n], k);
      ProductStep(n, k);
      assert forall j :: 0 <= j < n ==> xs[j] == xs[..n][j];
    }
  }
}

/** Counting distinct numbers below a bound. */
module Counting {

  ghost function Below(n: nat): set<nat> {
    if n == 0 then {} else Below(n - 1) + {n - 1}
  }

  lemma {:induction false} BelowSize(n: nat)
    ensures |Below(n)| == n && forall k: nat :: k in Below(n) <==> k < n
  {
    if n > 0 {
      BelowSize(n - 1);
    }
  }

  ghost function Elements(ids: seq<nat>): set<nat> {
    if ids == [] then {} else Elements(ids[..|ids| - 1]) + {ids[|ids| - 1]}
  }

  lemma {:induction false} ElementsSize(ids: seq<nat>)
    ensures forall k: nat :: k in Elements(ids) <==> k in ids
    ensures (forall u, w :: 0 <= u < w < |ids| ==> ids[u] != ids[w]) ==> |Elements(ids)| == |ids|
  {
    if ids != [] {
      ElementsSize(ids[..|ids| - 1]);
      assert ids == ids[..|ids| - 1] + [ids[|ids| - 1]];
    }
  }

  lemma SubsetSmaller<T>(x: set<T>, y: set<T>)
    requires x <= y
    ensures |x| <= |y|
  {
    assert y == x + (y - x);
  }

  /** Distinct numbers below a bound fill the range exactly when there are as many as the bound. */
  lemma DistinctFill(ids: seq<nat>, bound: nat)
    requires forall u, w :: 0 <= u < w < |ids| ==> ids[u] != ids[w]
    requires forall k :: 0 <= k < |ids| ==> ids[k] < bound
    ensures |ids| <= bound
    ensures |ids| == bound <==> forall id: nat :: id < bound ==> id in ids
  {
    ElementsSize(ids);
    BelowSize(bound);
    assert Elements(ids) <= Below(bound);
    SubsetSmaller(Elements(ids), Below(bound));
    if |ids| == bound {
      assert Below(bound) - Elements(ids) == {} by {
        assert |Below(bound)| == |Elements(ids)| + |Below(bound) - Elements(ids)| by {
          assert Below(bound) == Elements(ids) + (Below(bound) - Elements(ids));
        }
      }
      forall id: nat | id < bound ensures id in ids {
        assert id in Below(bound);
      }
    }
    if forall id: nat :: id < bound ==> id in ids {
      assert Below(bound) <= Elements(ids);
      SubsetSmaller(Below(bound), Elements(ids));
    }
  }
}
