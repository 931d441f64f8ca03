/**
 Row-major reshapes, as nested sequences.

 Merging the two outer dimensions of a contiguous tensor concatenates its blocks, and
 splitting a dimension cuts it into blocks of equal size.
 */
module Tensors {

  /** `a * n`, by repeated addition, so that indices stay linear; see `TimesIsProduct`. */
  function Times(a: nat, n: nat): nat {
    if a == 0 then 0 else Times(a - 1, n) + n
  }

  lemma {:induction false} TimesIsProduct(a: nat, n: nat)
    ensures Times(a, n) == a * n
  {
    if a > 0 {
      TimesIsProduct(a - 1, n);
      assert a * n == (a - 1) * n + n;
    }
  }

  lemma {:induction false} TimesDistributes(a: nat, b: nat, n: nat)
    ensures Times(a + b, n) == Times(a, n) + Times(b, n)
    decreases b
  {
    if b > 0 {
      TimesDistributes(a, b - 1, n);
    }
  }

  lemma {:induction false} TimesAssociates(a: nat, m: nat, n: nat)
    ensures Times(Times(a, m), n) == Times(a, Times(m, n))
  {
    if a > 0 {
      TimesAssociates(a - 1, m, n);
      TimesDistributes(Times(a - 1, m), m, n);
    }
  }

  lemma {:induction false} TimesBelow(i: nat, a: nat, n: nat)
    requires i < a
    ensures Times(i, n) + n <= Times(a, n)
    decreases a
  {
    if i < a - 1 {
      TimesBelow(i, a - 1, n);
    }
  }

  /** Every index of a merged dimension is an index within one of its blocks. */
  lemma {:induction false} SplitIndex(a: nat, n: nat, r: nat) returns (i: nat, j: nat)
    requires r < Times(a, n)
    ensures i < a && j < n && r == Times(i, n) + j
    decreases a
  {
    if r < Times(a - 1, n) {
      i, j := SplitIndex(a - 1, n, r);
    } else {
      i, j := a - 1, r - Times(a - 1, n);
    }
  }

  ghost predicate Uniform<T>(xss: seq<seq<T>>, n: nat) {
    forall i :: 0 <= i < |xss| ==> |xss[i]| == n
  }

  /** `reshape((a * n, ..))` of a tensor of shape `(a, n, ..)`. */
  function Flatten<T>(xss: seq<seq<T>>): seq<T> {
    if xss == [] then [] else Flatten(xss[..|xss| - 1]) + xss[|xss| - 1]
  }

  /** `reshape((a, n, ..))` of a tensor of shape `(a * n, ..)`. */
  function Chunk<T>(xs: seq<T>, a: nat, n: nat): (xss: seq<seq<T>>)
    requires |xs| == Times(a, n)
    ensures |xss| == a
    decreases a
  {
    if a == 0 then [] else Chunk(xs[..|xs| - n], a - 1, n) + [xs[|xs| - n..]]
  }

  /** `transpose`: the two outer dimensions swapped. */
  function Transpose<T>(xss: seq<seq<T>>, n: nat): (r: seq<seq<T>>)
    requires forall i :: 0 <= i < |xss| ==> |xss[i]| == n
    ensures |r| == n
    ensures forall j, i :: 0 <= j < n && 0 <= i < |xss| ==> |r[j]| == |xss| && r[j][i] == xss[i][j]
  {
    seq(n, j requires 0 <= j < n => seq(|xss|, i requires 0 <= i < |xss| => xss[i][j]))
  }

  lemma {:induction false} FlattenLength<T>(xss: seq<seq<T>>, n: nat)
    requires Uniform(xss, n)
    ensures |Flatten(xss)| == Times(|xss|, n)
  {
    if xss != [] {
      FlattenLength(xss[..|xss| - 1], n);
    }
  }

  /** Position `i * n + j` of the merged dimension is position `j` of block `i`. */
  lemma {:induction false} FlattenAt<T>(xss: seq<seq<T>>, n: nat, i: nat, j: nat)
    requires Uniform(xss, n) && i < |xss| && j < n
    ensures Times(i, n) + j < |Flatten(xss)| == Times(|xss|, n)
    ensures Flatten(xss)[Times(i, n) + j] == xss[i][j]
  {
    var last := |xss| - 1;
    var front := xss[..last];
    FlattenLength(front, n);
    FlattenLength(xss, n);
    if i < last {
      FlattenAt(front, n, i, j);
    }
  }

  /** Block `i` of a split starts at position `i * n`. */
  lemma {:induction false} ChunkAt<T>(xs: seq<T>, a: nat, n: nat, i: nat)
    requires |xs| == Times(a, n) && i < a
    ensures Times(i, n) + n <= |xs| && Chunk(xs, a, n)[i] == xs[Times(i, n)..Times(i, n) + n]
    decreases a
  {
    if i < a - 1 {
      var front := xs[..|xs| - n];
      ChunkAt(front, a - 1, n, i);
      assert front[Times(i, n)..Times(i, n) + n] == xs[Times(i, n)..Times(i, n) + n];
    } else {
      assert Times(i, n) + n == |xs|;
    }
  }

  /** Splitting undoes merging. */
  lemma {:induction false} ChunkFlatten<T>(xss: seq<seq<T>>, n: nat)
    requires Uniform(xss, n)
    ensures |Flatten(xss)| == Times(|xss|, n) && Chunk(Flatten(xss), |xss|, n) == xss
  {
    FlattenLength(xss, n);
    if xss != [] {
      var front := xss[..|xss| - 1];
      FlattenLength(front, n);
      ChunkFlatten(front, n);
      var flat := Flatten(xss);
      assert flat[..|flat| - n] == Flatten(front) && flat[|flat| - n..] == xss[|xss| - 1];
      assert xss == front + [xss[|xss| - 1]];
    }
  }

  /** `repeat_kv`: each row of the outer dimension repeated `groups` times in place, by
      `unsqueeze`, `expand` and `reshape`. */
  function RepeatKv<T>(kv: seq<T>, groups: nat): seq<T> {
    if groups == 1 then kv else Flatten(Expanded(kv, groups))
  }

  function Expanded<T>(kv: seq<T>, groups: nat): (r: seq<seq<T>>)
    ensures |r| == |kv| && forall i :: 0 <= i < |kv| ==> |r[i]| == groups
    ensures forall i, j :: 0 <= i < |kv| && 0 <= j < groups ==> r[i][j] == kv[i]
  {
    seq(|kv|, i requires 0 <= i < |kv| => seq(groups, _ => kv[i]))
  }

  lemma {:induction false} TimesOne(a: nat)
    ensures Times(a, 1) == a
  {
    if a > 0 {
      TimesOne(a - 1);
    }
  }

  lemma RepeatKvLength<T>(kv: seq<T>, groups: nat)
    ensures |RepeatKv(kv, groups)| == Times(|kv|, groups)
  {
    if groups == 1 {
      TimesOne(|kv|);
    } else {
      FlattenLength(Expanded(kv, groups), groups);
    }
  }

  /** Row `i * groups + j` of the repetition is row `i`. */
  lemma RepeatKvAt<T>(kv: seq<T>, groups: nat, i: nat, j: nat)
    requires i < |kv| && j < groups
    ensures Times(i, groups) + j < |RepeatKv(kv, groups)|
    ensures RepeatKv(kv, groups)[Times(i, groups) + j] == kv[i]
  {
    if groups == 1 {
      TimesOne(i);
    } else {
      FlattenAt(Expanded(kv, groups), groups, i, j);
    }
  }
}
