/**
 What a block computes, in plain terms: softmax over the positions up to a row's own, its heads
 side by side, two residual additions, and a cache of rotated keys and plain values.
 */
module AttentionLaws {
  import opened Common
  import opened Tensors
  import opened Attention
  import opened KvCache

  // ---------------------------------------------------------------- sums and products

  /** A sum grows by what is appended. */
  lemma SumGrows(xs: seq<real>, x: real)
    ensures Sum([]) == 0.0 && Sum(xs + [x]) == Sum(xs) + x
  {
    assert (xs + [x])[..|xs|] == xs;
  }

  /** An inner product grows by the product of what is appended. */
  lemma DotGrows(xs: Vec, ys: Vec, x: real, y: real)
    requires |xs| == |ys|
    ensures Dot([], []) == 0.0 && Dot(xs + [x], ys + [y]) == Dot(xs, ys) + x * y
  {
    var products := seq(|xs|, c requires 0 <= c < |xs| => xs[c] * Entry(ys, c));
    var longer := seq(|xs + [x]|, c requires 0 <= c < |xs + [x]| => (xs + [x])[c] * Entry(ys + [y], c));
    forall c | 0 <= c < |xs| ensures longer[c] == products[c] {
      assert Entry(ys + [y], c) == Entry(ys, c);
    }
    assert longer[|xs|] == x * y;
    assert longer == products + [x * y];
    SumGrows(products, x * y);
  }

  lemma {:induction false} SumScales(xs: seq<real>, ys: seq<real>, t: real)
    requires |xs| == |ys| && forall i :: 0 <= i < |xs| ==> ys[i] == xs[i] * t
    ensures Sum(ys) == Sum(xs) * t
  {
    if xs != [] {
      var n := |xs| - 1;
      SumScales(xs[..n], ys[..n], t);
      assert (Sum(xs[..n]) + xs[n]) * t == Sum(xs[..n]) * t + xs[n] * t;
    }
  }

  // ---------------------------------------------------------------- softmax

  /** `exp` of the scaled scores of positions 0 to `n`. */
  function Exps(b: Block, q: Vec, ks: seq<Vec>, n: nat): (es: seq<real>)
    requires b.scale != 0.0 && n < |ks|
    ensures |es| == n + 1 && forall j :: 0 <= j <= n ==> es[j] == b.exp(Dot(q, ks[j]) / b.scale)
  {
    seq(n + 1, j requires 0 <= j <= n => b.exp(Dot(q, ks[j]) / b.scale))
  }

  /** Entry `c` of the values of positions 0 to `n`, each times its weight. */
  function Weighted(es: seq<real>, vs: seq<Vec>, n: nat, c: nat): (r: seq<real>)
    requires |es| == n + 1 && n < |vs| && forall j :: 0 <= j <= n ==> c < |vs[j]|
    ensures |r| == n + 1 && forall j :: 0 <= j <= n ==> r[j] == es[j] * vs[j][c]
  {
    seq(n + 1, j requires 0 <= j <= n => es[j] * vs[j][c])
  }

  lemma ExpsPositive(b: Block, q: Vec, ks: seq<Vec>, n: nat)
    requires b.Valid() && n < |ks|
    ensures forall j :: 0 <= j <= n ==> Exps(b, q, ks, n)[j] > 0.0
    ensures Sum(Exps(b, q, ks, n)) > 0.0
  {
    SumPositive(Exps(b, q, ks, n), n);
  }

  /** Row `n` attends to positions 0 to `n`, each with the positive weight `exp(q.k / scale)`, and to
      no other: its output times the sum of these weights is the weighted sum of the values. */
  lemma SoftmaxLaw(b: Block, q: Vec, ks: seq<Vec>, vs: seq<Vec>, n: nat, c: nat)
    requires b.Valid() && |ks| == |vs| && n < |ks| && c < b.headDim
    requires forall j :: 0 <= j <= n ==> |vs[j]| == b.headDim
    ensures |AttendCausal(b, q, ks, vs, n)| == b.headDim
    ensures AttendCausal(b, q, ks, vs, n)[c] * Sum(Exps(b, q, ks, n)) == Sum(Weighted(Exps(b, q, ks, n), vs, n, c))
  {
    hide Weights, Mix, Sum, AttendCausal;
    var ks1, vs1, es := ks[..n + 1], vs[..n + 1], Exps(b, q, ks, n);
    AttentionIsCausal(b, q, ks, vs, n, n + 1);
    ExpsPositive(b, q, ks, n);
    LastRowMixes(b, q, ks1, vs1, es, n);
    MixLaw(es, Sum(es), vs1, b.headDim, c, Weighted(es, vs, n, c));
  }

  /** The last row of all sees every position. */
  lemma LastRowMixes(b: Block, q: Vec, ks: seq<Vec>, vs: seq<Vec>, es: seq<real>, n: nat)
    requires b.Valid() && |ks| == |vs| == |es| == n + 1 && Sum(es) != 0.0
    requires forall j :: 0 <= j <= n ==> es[j] == b.exp(Dot(q, ks[j]) / b.scale)
    ensures AttendCausal(b, q, ks, vs, n) == Mix(es, Sum(es), vs, b.headDim)
  {
    hide Mix, Sum;
    assert Weights(b, q, ks, MaskRow(n, n + 1)) == es;
  }

  lemma MixLaw(ws: seq<real>, total: real, vs: seq<Vec>, dim: nat, c: nat, weighted: seq<real>)
    requires |ws| == |vs| == |weighted| && total != 0.0 && c < dim
    requires forall j :: 0 <= j < |vs| ==> |vs[j]| == dim && weighted[j] == ws[j] * vs[j][c]
    ensures Mix(ws, total, vs, dim)[c] * total == Sum(weighted)
  {
    var shares := seq(|vs|, j requires 0 <= j < |vs| => ws[j] / total * Entry(vs[j], c));
    forall j | 0 <= j < |vs| ensures weighted[j] == shares[j] * total {
      ShareOf(ws[j], total, vs[j][c]);
    }
    SumScales(shares, weighted, total);
  }

  lemma ShareOf(w: real, total: real, v: real)
    requires total != 0.0
    ensures w / total * v * total == w * v
  {
    var share := w / total;
    assert share * total == w;
    assert share * v * total == share * total * v;
  }

  /** Entry `c` of the values of positions 0 to `n`. */
  function Column(vs: seq<Vec>, n: nat, c: nat): (r: seq<real>)
    requires n < |vs| && forall j :: 0 <= j <= n ==> c < |vs[j]|
    ensures |r| == n + 1 && forall j :: 0 <= j <= n ==> r[j] == vs[j][c]
  {
    seq(n + 1, j requires 0 <= j <= n => vs[j][c])
  }

  /** When all scores are equal, row `n` has the mean of the values of positions 0 to `n`. */
  lemma EqualScoresGiveMean(b: Block, q: Vec, ks: seq<Vec>, vs: seq<Vec>, n: nat, c: nat)
    requires b.Valid() && |ks| == |vs| && n < |ks| && c < b.headDim
    requires forall j :: 0 <= j <= n ==> |vs[j]| == b.headDim && Dot(q, ks[j]) == Dot(q, ks[0])
    ensures |AttendCausal(b, q, ks, vs, n)| == b.headDim
    ensures AttendCausal(b, q, ks, vs, n)[c] * (n + 1) as real ==
              Sum(Column(vs, n, c))
  {
    hide Sum, AttendCausal;
    var es, plain := Exps(b, q, ks, n), Column(vs, n, c);
    SoftmaxLaw(b, q, ks, vs, n, c);
    var e, out := es[0], AttendCausal(b, q, ks, vs, n)[c];
    ExpsPositive(b, q, ks, n);
    SumScales(plain, Weighted(es, vs, n, c), e);
    SumScales(seq(n + 1, _ => 1.0), es, e);
    SumOfOnes(n + 1);
    Cancel(out, (n + 1) as real, Sum(plain), e);
  }

  lemma {:induction false} SumOfOnes(n: nat)
    ensures Sum(seq(n, _ => 1.0)) == n as real
  {
    if n > 0 {
      SumOfOnes(n - 1);
      assert seq(n, _ => 1.0)[..n - 1] == seq(n - 1, _ => 1.0);
    }
  }

  lemma Cancel(x: real, n: real, y: real, e: real)
    requires e > 0.0 && x * (n * e) == y * e
    ensures x * n == y
  {
    assert (x * n - y) * e == 0.0;
  }

  // ---------------------------------------------------------------- the cache

  /** The cache keeps the past rows and then holds, for each row of the pass, its keys rotated by its
      position and its values as they are. */
  lemma CacheHolds(b: Block, xs: seq<seq<Vec>>, positions: seq<seq<nat>>, seqLen: nat, past: Option<Cache>,
                   i: nat, g: nat)
    requires Batch(xs, |xs|, seqLen) && Batch(positions, |xs|, seqLen)
    requires past.Some? ==> CacheFits(b, |xs|, past.value)
    requires i < |xs| && g < b.nKvHeads
    ensures var full, n := NewCache(b, xs, positions, seqLen, past), if past.Some? then past.value.len else 0;
            && full.len == n + seqLen && |full.k| == |full.v| == |xs| && |full.k[i]| == |full.v[i]| == b.nKvHeads
            && |full.k[i][g]| == |full.v[i][g]| == n + seqLen
    ensures past.Some? ==>
              && i < |past.value.k| && i < |past.value.v| && g < |past.value.k[i]| && g < |past.value.v[i]|
              && past.value.k[i][g] <= NewCache(b, xs, positions, seqLen, past).k[i][g]
              && past.value.v[i][g] <= NewCache(b, xs, positions, seqLen, past).v[i][g]
              && |past.value.k[i][g]| == |past.value.v[i][g]| == past.value.len
    ensures forall s: nat :: s < seqLen ==>
              var full, n := NewCache(b, xs, positions, seqLen, past), if past.Some? then past.value.len else 0;
              && s < |xs[i]| && s < |positions[i]|
              && full.k[i][g][n + s] == b.rope(HeadOf(b.kProj(b.inputNorm(xs[i][s])), b.headDim, g), positions[i][s])
              && full.v[i][g][n + s] == HeadOf(b.vProj(b.inputNorm(xs[i][s])), b.headDim, g)
  {
    hide Keys, Values, NewCache;
    var p := Piece(xs, positions, seqLen);
    CacheAt(b, p, past, i, g);
    var full := CacheAfter(b, p, past);
    assert Grid(full.k[i], b.nKvHeads, full.len) && Grid(full.v[i], b.nKvHeads, full.len);
    if past.Some? {
      assert Grid(past.value.k[i], b.nKvHeads, past.value.len) && Grid(past.value.v[i], b.nKvHeads, past.value.len);
    }
  }

  // ---------------------------------------------------------------- the block

  lemma FinishAdds(b: Block, x: Vec, attention: Vec) returns (mid: Vec)
    ensures |mid| == |x| == |Finish(b, x, attention)|
    ensures forall c: nat :: c < |x| && c < |b.oProj(attention)| ==> mid[c] == x[c] + b.oProj(attention)[c]
    ensures forall c: nat :: c < |x| && c < |b.mlp(b.postNorm(mid))| ==>
              Finish(b, x, attention)[c] == mid[c] + b.mlp(b.postNorm(mid))[c]
  {
    mid := Add(x, b.oProj(attention));
  }

  /** Row `s` of batch element `i`: query head `h` is the rotated projection of the normed row and
      attends to key/value head `h / groups`; the heads side by side, projected, are added to the
      row; and the MLP of the normed sum is added to the sum. */
  lemma BlockComputes(b: Block, xs: seq<seq<Vec>>, positions: seq<seq<nat>>, seqLen: nat, past: Option<Cache>,
                      full: Cache, i: nat, s: nat)
    returns (heads: seq<Vec>, mid: Vec)
    requires b.Valid() && Batch(xs, |xs|, seqLen) && Batch(positions, |xs|, seqLen)
    requires past.Some? ==> CacheFits(b, |xs|, past.value)
    requires full == NewCache(b, xs, positions, seqLen, past) && i < |xs| && s < seqLen
    ensures |heads| == b.nHeads && Grid(full.k[i], b.nKvHeads, full.len) && Grid(full.v[i], b.nKvHeads, full.len)
    ensures forall h: nat :: h < b.nHeads ==>
              && b.nKvGroups > 0 && h / b.nKvGroups < b.nKvHeads
              && heads[h] == AttendCausal(b, b.rope(HeadOf(b.qProj(b.inputNorm(xs[i][s])), b.headDim, h), positions[i][s]),
                                          full.k[i][h / b.nKvGroups], full.v[i][h / b.nKvGroups],
                                          (if past.Some? then past.value.len else 0) + s)
    ensures var x, joined, out := xs[i][s], b.oProj(Flatten(heads)), ForwardInner(b, xs, positions, seqLen, past)[i][s];
            && |mid| == |x| == |out|
            && (forall c: nat :: c < |x| && c < |joined| ==> mid[c] == x[c] + joined[c])
            && (forall c: nat :: c < |x| && c < |b.mlp(b.postNorm(mid))| ==> out[c] == mid[c] + b.mlp(b.postNorm(mid))[c])
  {
    hide ForwardInner, NewCache, AttendCausal, Finish;
    ForwardIsRowwise(b, xs, positions, seqLen, past, full, i, s);
    var n := PastLen(past) + s;
    heads := HeadOutputs(b, xs[i][s], positions[i][s], full.k[i], full.v[i], n, full.len);
    forall h: nat | h < b.nHeads
      ensures b.nKvGroups > 0 && KvHead(b, h) == h / b.nKvGroups < b.nKvHeads
    {
      KvHeadBelow(b, h);
    }
    mid := FinishAdds(b, xs[i][s], Flatten(heads));
  }
}
