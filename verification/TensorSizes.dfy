/** What the accountant counts: for each element of a tensor, the size of an element. */
module TensorSizes {
  import opened Tensors
  import opened MemoryAccounting

  type Index = seq<nat>

  /** An index has one number for each dimension, below its extent. */
  ghost predicate IndexOf(shape: seq<nat>, index: Index) {
    |index| == |shape| && forall d :: 0 <= d < |shape| ==> index[d] < shape[d]
  }

  ghost predicate NoDuplicates(xs: seq<Index>) {
    forall i, j :: 0 <= i < j < |xs| ==> xs[i] != xs[j]
  }

  /** Each index followed by `v`. */
  function Followed(xs: seq<Index>, v: nat): (r: seq<Index>)
    ensures |r| == |xs| && forall i :: 0 <= i < |xs| ==> r[i] == xs[i] + [v]
  {
    seq(|xs|, i requires 0 <= i < |xs| => xs[i] + [v])
  }

  /** Each index followed by each number below `n`. */
  function Extended(xs: seq<Index>, n: nat): seq<Index> {
    if n == 0 then [] else Extended(xs, n - 1) + Followed(xs, n - 1)
  }

  lemma {:induction false} ExtendedHolds(shape: seq<nat>, xs: seq<Index>, n: nat, index: Index)
    requires forall index :: index in xs <==> IndexOf(shape, index)
    ensures index in Extended(xs, n) <==> IndexOf(shape + [n], index)
    decreases n
  {
    if n > 0 {
      ExtendedHolds(shape, xs, n - 1, index);
      FollowedHolds(shape, xs, n - 1, index);
      var k := |shape|;
      assert |index| == k + 1 ==> index == index[..k] + [index[k]];
      assert IndexOf(shape + [n], index) <==>
             |index| == k + 1 && index[k] < n && forall d :: 0 <= d < k ==> index[d] < shape[d];
    } else {
      assert (shape + [n])[|shape|] == 0;
    }
  }

  lemma FollowedHolds(shape: seq<nat>, xs: seq<Index>, v: nat, index: Index)
    requires forall index :: index in xs <==> IndexOf(shape, index)
    ensures index in Followed(xs, v) <==>
              |index| == |shape| + 1 && index[|shape|] == v && forall d :: 0 <= d < |shape| ==> index[d] < shape[d]
  {
    var k := |shape|;
    if |index| == k + 1 && index[k] == v && forall d :: 0 <= d < k ==> index[d] < shape[d] {
      assert index == index[..k] + [v] && IndexOf(shape, index[..k]);
      var i :| 0 <= i < |xs| && xs[i] == index[..k];
      assert Followed(xs, v)[i] == index;
    }
    if index in Followed(xs, v) {
      var i :| 0 <= i < |xs| && Followed(xs, v)[i] == index;
      assert IndexOf(shape, xs[i]) && index == xs[i] + [v];
    }
  }

  lemma {:induction false} ExtendedDistinct(xs: seq<Index>, n: nat, length: nat)
    requires NoDuplicates(xs) && forall i :: 0 <= i < |xs| ==> |xs[i]| == length
    ensures NoDuplicates(Extended(xs, n)) && |Extended(xs, n)| == Times(n, |xs|)
    ensures forall i :: 0 <= i < |Extended(xs, n)| ==> |Extended(xs, n)[i]| == length + 1 && Extended(xs, n)[i][length] < n
  {
    if n > 0 {
      ExtendedDistinct(xs, n - 1, length);
      var before, last := Extended(xs, n - 1), Followed(xs, n - 1);
      forall i, j | 0 <= i < j < |last| ensures last[i] != last[j] {
        assert last[i][..length] == xs[i] && last[j][..length] == xs[j];
      }
      forall i | 0 <= i < |last| ensures last[i][length] == n - 1 {
      }
    }
  }

  /** All indices into a tensor of the shape, each once, are as many as the product of the extents;
      and the tensor takes the size of an element for each. */
  lemma {:induction false} BytesCountElements(shape: seq<nat>, elementSize: nat) returns (all: seq<Index>)
    ensures NoDuplicates(all) && forall index :: index in all <==> IndexOf(shape, index)
    ensures |all| == Product(shape) && Tensor(shape, elementSize).Bytes() == |all| * elementSize
    decreases |shape|
  {
    if shape == [] {
      all := [[]];
      assert forall index :: IndexOf([], index) <==> index == [];
    } else {
      var front, n := shape[..|shape| - 1], shape[|shape| - 1];
      var xs := BytesCountElements(front, elementSize);
      all := Extended(xs, n);
      assert shape == front + [n];
      forall i | 0 <= i < |xs| ensures |xs[i]| == |front| {
        assert xs[i] in xs;
      }
      ExtendedDistinct(xs, n, |front|);
      forall index ensures index in all <==> IndexOf(shape, index) {
        ExtendedHolds(front, xs, n, index);
      }
      TimesIsProduct(n, |xs|);
    }
  }
}
