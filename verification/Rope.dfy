/**
 Rotary position embedding, in exact arithmetic: `cos`, `sin` and the inverse frequencies are
 parameters, and the laws of angles are hypotheses.
 */
module Rope {
  import opened Common
  import opened Attention
  import opened KvCache

  datatype Rotary = Rotary(headDim: nat, invFreq: nat -> real, cos: real -> real, sin: real -> real)

  /** The angle of pair `i` at a position. */
  function Angle(r: Rotary, position: real, i: nat): real { position * r.invFreq(i) }

  /** `rotate_half`: the second half negated, then the first. */
  function RotateHalf(x: Vec): (r: Vec)
    ensures |r| == |x|
  {
    var h := |x| / 2;
    seq(|x| - h, i requires 0 <= i < |x| - h => -x[h + i]) + x[..h]
  }

  /** The angles for each entry of a head: the frequencies of every second index, twice over. */
  function Emb(r: Rotary, position: nat): (e: seq<real>)
    ensures |e| == 2 * ((r.headDim + 1) / 2)
    ensures forall i: nat :: i < |e| ==> e[i] == Angle(r, position as real, if i < |e| / 2 then i else i - |e| / 2)
  {
    var freqs := seq((r.headDim + 1) / 2, i requires 0 <= i => Angle(r, position as real, i));
    freqs + freqs
  }

  /** `apply` for one head of one row: nothing when the shapes do not match. */
  function Apply(r: Rotary, x: Vec, position: nat): Option<Vec>
    requires |x| == r.headDim
  {
    var e := Emb(r, position);
    if |e| != |x| then None
    else Some(seq(|x|, i requires 0 <= i < |x| => x[i] * r.cos(e[i]) + RotateHalf(x)[i] * r.sin(e[i])))
  }

  /** The rotation is defined for every vector of an even head dimension, and for no other. */
  lemma ApplyIsDefined(r: Rotary, x: Vec, position: nat)
    requires |x| == r.headDim
    ensures Apply(r, x, position).Some? <==> r.headDim % 2 == 0
    ensures Apply(r, x, position).Some? ==> |Apply(r, x, position).value| == |x|
  {
  }

  ghost predicate AnglesAt(r: Rotary, a: real, b: real) {
    && r.cos(a - b) == r.cos(a) * r.cos(b) + r.sin(a) * r.sin(b)
    && r.sin(a - b) == r.sin(a) * r.cos(b) - r.cos(a) * r.sin(b)
  }

  /** The laws of angle subtraction. */
  ghost predicate Laws(r: Rotary) {
    r.cos(0.0) == 1.0 && forall a: real, b: real :: AnglesAt(r, a, b)
  }

  // ---------------------------------------------------------------- inner products by pairs

  lemma {:induction false} SumCat(xs: seq<real>, ys: seq<real>)
    ensures Sum(xs + ys) == Sum(xs) + Sum(ys)
  {
    if ys == [] {
      assert xs + ys == xs;
    } else {
      SumCat(xs, ys[..|ys| - 1]);
      assert (xs + ys)[..|xs + ys| - 1] == xs + ys[..|ys| - 1];
    }
  }

  lemma {:induction false} SumAdd(xs: seq<real>, ys: seq<real>, zs: seq<real>)
    requires |xs| == |ys| == |zs| && forall i :: 0 <= i < |xs| ==> zs[i] == xs[i] + ys[i]
    ensures Sum(zs) == Sum(xs) + Sum(ys)
  {
    if xs != [] {
      SumAdd(xs[..|xs| - 1], ys[..|xs| - 1], zs[..|xs| - 1]);
    }
  }

  /** Entry `i` of one half with entry `i` of the other. */
  function PairProduct(x: Vec, y: Vec, i: nat): real
    requires |x| == |y| && i < |x| / 2
  {
    x[i] * y[i] + x[|x| / 2 + i] * y[|x| / 2 + i]
  }

  function Pairs(x: Vec, y: Vec): (r: seq<real>)
    requires |x| == |y|
    ensures |r| == |x| / 2 && forall i :: 0 <= i < |r| ==> r[i] == PairProduct(x, y, i)
  {
    seq(|x| / 2, i requires 0 <= i < |x| / 2 => PairProduct(x, y, i))
  }

  lemma DotByPairs(x: Vec, y: Vec)
    requires |x| == |y| && |x| % 2 == 0
    ensures Dot(x, y) == Sum(Pairs(x, y))
  {
    var h := |x| / 2;
    var products := seq(|x|, c requires 0 <= c < |x| => x[c] * Entry(y, c));
    assert products == products[..h] + products[h..];
    SumCat(products[..h], products[h..]);
    SumAdd(products[..h], products[h..], Pairs(x, y));
  }

  // ---------------------------------------------------------------- relative positions

  /** A pair of entries, turned by an angle. */
  lemma RotatedPair(r: Rotary, x: Vec, position: nat, i: nat)
    requires |x| == r.headDim && r.headDim % 2 == 0 && i < |x| / 2
    ensures Apply(r, x, position).Some?
    ensures var y, h, c, s := Apply(r, x, position).value, |x| / 2, r.cos(Angle(r, position as real, i)), r.sin(Angle(r, position as real, i));
            |y| == |x| && y[i] == x[i] * c - x[h + i] * s && y[h + i] == x[h + i] * c + x[i] * s
  {
    var h, s := |x| / 2, r.sin(Angle(r, position as real, i));
    assert RotateHalf(x)[i] == -x[h + i] && RotateHalf(x)[h + i] == x[i];
    assert -x[h + i] * s == -(x[h + i] * s);
  }

  /** The pair of entry `i` of either half is turned by the position times frequency `i`. */
  lemma PairTurns(r: Rotary, x: Vec, position: nat, i: nat, angle: real)
    requires |x| == r.headDim && r.headDim % 2 == 0 && i < |x| / 2 && angle == position as real * r.invFreq(i)
    ensures Apply(r, x, position).Some? && |Apply(r, x, position).value| == |x|
    ensures Apply(r, x, position).value[i] == x[i] * r.cos(angle) - x[|x| / 2 + i] * r.sin(angle)
    ensures Apply(r, x, position).value[|x| / 2 + i] == x[|x| / 2 + i] * r.cos(angle) + x[i] * r.sin(angle)
  {
    hide Apply;
    RotatedPair(r, x, position, i);
    assert angle == Angle(r, position as real, i);
  }

  /** Two pairs, each turned by an angle, meet at the difference of the angles. */
  lemma TurnedPairs(a: real, b: real, a': real, b': real, c: real, s: real, c': real, s': real)
    ensures (a * c - b * s) * (a' * c' - b' * s') + (b * c + a * s) * (b' * c' + a' * s') ==
              (a * a' + b * b') * (c * c' + s * s') + (a * b' - b * a') * (s * c' - c * s')
  {
    Expand(a * c, b * s, a' * c', b' * s');
    assert (b * c + a * s) * (b' * c' + a' * s') ==
           (b * c) * (b' * c') + (b * c) * (a' * s') + (a * s) * (b' * c') + (a * s) * (a' * s');
  }

  lemma Expand(p: real, q: real, p': real, q': real)
    ensures (p - q) * (p' - q') == p * p' - p * q' - q * p' + q * q'
  {
  }

  /** Pair `i` of a query and a key at an angle to each other. */
  function PairAt(r: Rotary, q: Vec, k: Vec, angle: real, i: nat): real
    requires |q| == |k| && i < |q| / 2
  {
    var h := |q| / 2;
    (q[i] * k[i] + q[h + i] * k[h + i]) * r.cos(angle) + (q[i] * k[h + i] - q[h + i] * k[i]) * r.sin(angle)
  }

  lemma TurnedMeet(r: Rotary, a: real, b: real, d: real, q: Vec, k: Vec, x: Vec, y: Vec, i: nat)
    requires Laws(r) && |q| == |k| == |x| == |y| && |q| % 2 == 0 && i < |q| / 2 && d == a - b
    requires var h := |q| / 2;
             && x[i] == q[i] * r.cos(a) - q[h + i] * r.sin(a) && x[h + i] == q[h + i] * r.cos(a) + q[i] * r.sin(a)
             && y[i] == k[i] * r.cos(b) - k[h + i] * r.sin(b) && y[h + i] == k[h + i] * r.cos(b) + k[i] * r.sin(b)
    ensures PairProduct(x, y, i) == PairAt(r, q, k, d, i)
  {
    var h := |q| / 2;
    TurnedPairs(q[i], q[h + i], k[i], k[h + i], r.cos(a), r.sin(a), r.cos(b), r.sin(b));
    assert AnglesAt(r, a, b);
  }

  function RelativePairs(r: Rotary, q: Vec, k: Vec, distance: real): (ps: seq<real>)
    requires |q| == |k|
    ensures |ps| == |q| / 2 && forall i :: 0 <= i < |ps| ==> ps[i] == PairAt(r, q, k, Angle(r, distance, i), i)
  {
    seq(|q| / 2, i requires 0 <= i < |q| / 2 => PairAt(r, q, k, Angle(r, distance, i), i))
  }

  /** The inner product of a query and a key that are `distance` positions apart. */
  function RelativeDot(r: Rotary, q: Vec, k: Vec, distance: real): real
    requires |q| == |k|
  {
    Sum(RelativePairs(r, q, k, distance))
  }

  lemma PairIsRelative(r: Rotary, q: Vec, k: Vec, m: nat, n: nat, i: nat)
    requires Laws(r) && |q| == |k| == r.headDim && r.headDim % 2 == 0 && i < |q| / 2
    ensures Apply(r, q, m).Some? && |Apply(r, q, m).value| == |q|
    ensures Apply(r, k, n).Some? && |Apply(r, k, n).value| == |k|
    ensures PairProduct(Apply(r, q, m).value, Apply(r, k, n).value, i) ==
              PairAt(r, q, k, Angle(r, m as real - n as real, i), i)
  {
    hide Apply, PairAt, PairProduct, Angle;
    RotatedPair(r, q, m, i);
    RotatedPair(r, k, n, i);
    var a, b, d := Angle(r, m as real, i), Angle(r, n as real, i), Angle(r, m as real - n as real, i);
    AngleDifference(r, m as real, n as real, i);
    TurnedMeet(r, a, b, d, q, k, Apply(r, q, m).value, Apply(r, k, n).value, i);
  }

  lemma AngleDifference(r: Rotary, m: real, n: real, i: nat)
    ensures Angle(r, m, i) - Angle(r, n, i) == Angle(r, m - n, i)
  {
  }

  /** The inner product of a query rotated at `m` and a key rotated at `n` is a function of the
      query, the key and `m - n`. */
  lemma DotIsRelative(r: Rotary, q: Vec, k: Vec, m: nat, n: nat)
    requires Laws(r) && |q| == |k| == r.headDim && r.headDim % 2 == 0
    ensures Apply(r, q, m).Some? && Apply(r, k, n).Some?
    ensures Dot(Apply(r, q, m).value, Apply(r, k, n).value) == RelativeDot(r, q, k, m as real - n as real)
  {
    hide Apply, PairAt, PairProduct, Laws, Angle, Pairs, RelativePairs, Dot, Sum;
    ApplyIsDefined(r, q, m);
    ApplyIsDefined(r, k, n);
    var x, y, distance := Apply(r, q, m).value, Apply(r, k, n).value, m as real - n as real;
    DotByPairs(x, y);
    forall i: nat | i < |q| / 2 ensures Pairs(x, y)[i] == RelativePairs(r, q, k, distance)[i] {
      PairIsRelative(r, q, k, m, n, i);
    }
    assert Pairs(x, y) == RelativePairs(r, q, k, distance);
  }

  /** Moving both positions by the same distance leaves the inner product as it is. */
  lemma DotIsShiftInvariant(r: Rotary, q: Vec, k: Vec, m: nat, n: nat, shift: nat)
    requires Laws(r) && |q| == |k| == r.headDim && r.headDim % 2 == 0
    ensures Apply(r, q, m).Some? && Apply(r, k, n).Some? && Apply(r, q, m + shift).Some? && Apply(r, k, n + shift).Some?
    ensures Dot(Apply(r, q, m + shift).value, Apply(r, k, n + shift).value) ==
              Dot(Apply(r, q, m).value, Apply(r, k, n).value)
  {
    hide Apply, RelativeDot, Laws;
    DotIsRelative(r, q, k, m, n);
    DotIsRelative(r, q, k, m + shift, n + shift);
    assert (m + shift) as real - (n + shift) as real == m as real - n as real;
  }

  /** A rotation keeps the squared norm. */
  lemma RotationKeepsNorm(r: Rotary, x: Vec, position: nat)
    requires Laws(r) && |x| == r.headDim && r.headDim % 2 == 0
    ensures Apply(r, x, position).Some?
    ensures Dot(Apply(r, x, position).value, Apply(r, x, position).value) == Dot(x, x)
  {
    DotIsRelative(r, x, x, position, position);
    DotByPairs(x, x);
    hide Apply, PairProduct, PairAt, Angle, Pairs, RelativePairs;
    forall i: nat | i < |x| / 2 ensures RelativePairs(r, x, x, 0.0)[i] == Pairs(x, x)[i] {
      PairWithItself(r, x, i);
    }
    assert RelativePairs(r, x, x, 0.0) == Pairs(x, x);
  }

  lemma PairWithItself(r: Rotary, x: Vec, i: nat)
    requires Laws(r) && i < |x| / 2
    ensures PairAt(r, x, x, Angle(r, 0.0, i), i) == PairProduct(x, x, i)
  {
    assert x[i] * x[|x| / 2 + i] == x[|x| / 2 + i] * x[i];
  }

  // ---------------------------------------------------------------- through the attention

  /** The block rotates its heads by `r`. */
  ghost predicate Rotates(b: Block, r: Rotary) {
    && Laws(r) && b.headDim == r.headDim && r.headDim % 2 == 0
    && forall x: Vec, position: nat :: |x| == r.headDim ==> Apply(r, x, position) == Some(b.rope(x, position))
  }

  ghost predicate AllRotate(blocks: seq<Block>, r: Rotary) {
    forall l :: 0 <= l < |blocks| ==> Rotates(blocks[l], r)
  }

  /** The same states, `shift` positions later. */
  function Shifted(p: Piece, shift: nat): (q: Piece)
    requires PieceFits(p, |p.xs|)
    ensures PieceFits(q, |p.xs|) && q.xs == p.xs && q.len == p.len
    ensures forall i, s :: 0 <= i < |p.xs| && 0 <= s < p.len ==> q.positions[i][s] == p.positions[i][s] + shift
  {
    p.(positions := seq(|p.xs|, i requires 0 <= i < |p.xs| =>
                          seq(p.len, s requires 0 <= s < p.len => p.positions[i][s] + shift)))
  }

  lemma ScoreShifts(b: Block, r: Rotary, x: Vec, y: Vec, m: nat, n: nat, h: nat, g: nat, shift: nat)
    requires Rotates(b, r)
    ensures Dot(QueryRow(b, x, m + shift, h), KeyRow(b, y, n + shift, g)) == Dot(QueryRow(b, x, m, h), KeyRow(b, y, n, g))
  {
    var q, k := HeadOf(b.qProj(b.inputNorm(x)), b.headDim, h), HeadOf(b.kProj(b.inputNorm(y)), b.headDim, g);
    DotIsShiftInvariant(r, q, k, m, n, shift);
    assert Apply(r, q, m) == Some(b.rope(q, m)) && Apply(r, q, m + shift) == Some(b.rope(q, m + shift));
    assert Apply(r, k, n) == Some(b.rope(k, n)) && Apply(r, k, n + shift) == Some(b.rope(k, n + shift));
  }

  lemma HeadShifts(b: Block, r: Rotary, rows: seq<Vec>, ps: seq<nat>, qs: seq<nat>, s: nat, h: nat, shift: nat)
    requires b.Valid() && Rotates(b, r) && s < |rows| == |ps| == |qs| && h < b.nHeads
    requires forall j :: 0 <= j < |rows| ==> qs[j] == ps[j] + shift
    ensures HeadOutput(b, rows[s], qs[s], Keys(b, rows, qs), Values(b, rows), s, |rows|, h) ==
              HeadOutput(b, rows[s], ps[s], Keys(b, rows, ps), Values(b, rows), s, |rows|, h)
  {
    hide Rotates, Dot, QueryRow, KeyRow, Keys, Values, AttendCausal, KvHead;
    KvHeadBelow(b, h);
    var g := KvHead(b, h);
    var ks, ks' := Keys(b, rows, ps)[g], Keys(b, rows, qs)[g];
    var q, q' := QueryRow(b, rows[s], ps[s], h), QueryRow(b, rows[s], qs[s], h);
    forall j: nat | j < |rows| ensures Dot(q', ks'[j]) == Dot(q, ks[j]) {
      ScoreShifts(b, r, rows[s], rows[j], ps[s], ps[j], h, g, shift);
    }
    SameScores(b, q, q', ks, ks', Values(b, rows)[g], s);
  }

  /** Attention depends on the keys through the scores only. */
  lemma SameScores(b: Block, q: Vec, q': Vec, ks: seq<Vec>, ks': seq<Vec>, vs: seq<Vec>, n: nat)
    requires b.Valid() && |ks| == |ks'| == |vs| && n < |vs|
    requires forall j: nat :: j < |vs| ==> Dot(q', ks'[j]) == Dot(q, ks[j])
    ensures AttendCausal(b, q', ks', vs, n) == AttendCausal(b, q, ks, vs, n)
  {
    assert Weights(b, q', ks', MaskRow(n, |vs|)) == Weights(b, q, ks, MaskRow(n, |vs|));
  }

  lemma PassShifts(b: Block, r: Rotary, p: Piece, shift: nat)
    requires b.Valid() && Rotates(b, r) && PieceFits(p, |p.xs|)
    ensures Pass(b, Shifted(p, shift), None) == Pass(b, p, None)
  {
    hide Pass, CacheAfter, Rotates, Keys, Values, HeadOutput;
    var p' := Shifted(p, shift);
    var out, out' := Pass(b, p, None), Pass(b, p', None);
    forall i: nat, s: nat | i < |p.xs| && s < p.len
      ensures i < |out| == |out'| && s < |out[i]| == |out'[i]| && out'[i][s] == out[i][s]
    {
      RowShifts(b, r, p, shift, i, s);
    }
    forall i: nat | i < |p.xs| ensures out'[i] == out[i] {
    }
  }

  lemma RowShifts(b: Block, r: Rotary, p: Piece, shift: nat, i: nat, s: nat)
    requires b.Valid() && Rotates(b, r) && PieceFits(p, |p.xs|) && i < |p.xs| && s < p.len
    ensures s < |Pass(b, p, None)[i]| && s < |Pass(b, Shifted(p, shift), None)[i]|
    ensures Pass(b, Shifted(p, shift), None)[i][s] == Pass(b, p, None)[i][s]
  {
    hide Pass, CacheAfter, Rotates, Keys, Values, HeadOutput;
    var p' := Shifted(p, shift);
    var c, c' := CacheAfter(b, p, None), CacheAfter(b, p', None);
    PassRow(b, p, None, c, i, s);
    PassRow(b, p', None, c', i, s);
    FreshCache(b, p, i);
    FreshCache(b, p', i);
    var rows, ps, qs := p.xs[i], p.positions[i], p'.positions[i];
    forall h: nat | h < b.nHeads
      ensures HeadOutput(b, rows[s], qs[s], Keys(b, rows, qs), Values(b, rows), s, p.len, h) ==
                HeadOutput(b, rows[s], ps[s], Keys(b, rows, ps), Values(b, rows), s, p.len, h)
    {
      HeadShifts(b, r, rows, ps, qs, s, h, shift);
    }
    assert HeadOutputs(b, rows[s], qs[s], Keys(b, rows, qs), Values(b, rows), s, p.len) ==
           HeadOutputs(b, rows[s], ps[s], Keys(b, rows, ps), Values(b, rows), s, p.len);
  }

  lemma FreshCache(b: Block, p: Piece, i: nat)
    requires PieceFits(p, |p.xs|) && i < |p.xs|
    ensures CacheAfter(b, p, None) == CacheAfter(b, p, None).(len := p.len)
    ensures |CacheAfter(b, p, None).k| == |CacheAfter(b, p, None).v| == |p.xs| && |p.xs[i]| == |p.positions[i]| == p.len
    ensures CacheAfter(b, p, None).k[i] == Keys(b, p.xs[i], p.positions[i])
    ensures CacheAfter(b, p, None).v[i] == Values(b, p.xs[i])
  {
    hide Keys, Values;
  }

  /** Where a sequence starts does not matter: through a stack of blocks, the pass over the same
      states at positions all moved by the same distance gives the same rows. */
  lemma {:induction false} StackShifts(blocks: seq<Block>, r: Rotary, p: Piece, pasts: seq<Option<Cache>>, shift: nat)
    requires PieceFits(p, |p.xs|) && StackFits(blocks, |p.xs|, pasts) && AllRotate(blocks, r)
    requires forall l :: 0 <= l < |pasts| ==> pasts[l] == None
    ensures StackPass(blocks, Shifted(p, shift), pasts).xs == StackPass(blocks, p, pasts).xs
  {
    hide Rotates, Pass;
    if blocks != [] {
      PassShifts(blocks[0], r, p, shift);
      var p' := Through(blocks[0], p, None);
      assert Shifted(p', shift) == Through(blocks[0], Shifted(p, shift), None);
      StackShifts(blocks[1..], r, p', pasts[1..], shift);
    }
  }
}
