/**
 One transformer block: grouped-query causal attention with a key/value cache, in exact
 arithmetic.  The projections, norms, the rotation, the MLP and `exp` are parameters.

 `ForwardInner` follows the tensor operations, with batch and head dimensions merged and split
 again.  `ForwardRow` says what they amount to for one row of one batch element.

 Shapes are those of the sequence, batch and head dimensions.  A vector that is too short is
 read as if padded with zeros.
 */
module Attention {
  import opened Common
  import opened Tensors

  type Vec = seq<real>

  /** An entry of the additive attention mask. */
  datatype MaskEntry = NegInfinity | Zero

  datatype Block = Block(
    nHeads: nat,
    nKvHeads: nat,
    nKvGroups: nat,
    headDim: nat,
    inputNorm: Vec -> Vec,
    qProj: Vec -> Vec,
    kProj: Vec -> Vec,
    vProj: Vec -> Vec,
    oProj: Vec -> Vec,
    postNorm: Vec -> Vec,
    mlp: Vec -> Vec,
    rope: (Vec, nat) -> Vec,
    exp: real -> real,
    scale: real)
  {
    /** The key/value heads divide the heads, and `exp` is positive. */
    ghost predicate Valid() {
      nKvHeads > 0 && nHeads == Times(nKvHeads, nKvGroups) && scale != 0.0 && forall x: real :: exp(x) > 0.0
    }
  }

  // ---------------------------------------------------------------- vectors

  function Sum(xs: seq<real>): real {
    if xs == [] then 0.0 else Sum(xs[..|xs| - 1]) + xs[|xs| - 1]
  }

  function Entry(x: Vec, c: nat): real {
    if c < |x| then x[c] else 0.0
  }

  function Add(x: Vec, y: Vec): (r: Vec)
    ensures |r| == |x|
  {
    seq(|x|, c requires 0 <= c < |x| => x[c] + Entry(y, c))
  }

  function Dot(x: Vec, y: Vec): real {
    Sum(seq(|x|, c requires 0 <= c < |x| => x[c] * Entry(y, c)))
  }

  /** Head `h` of a row: a reshape to `(heads, dim)` cuts the row into equal pieces. */
  function HeadOf(row: Vec, dim: nat, h: nat): (r: Vec)
    ensures |r| == dim
  {
    seq(dim, c requires 0 <= c => Entry(row, Times(h, dim) + c))
  }

  lemma HeadOfIsChunk(row: Vec, heads: nat, dim: nat, h: nat)
    requires |row| == Times(heads, dim) && h < heads
    ensures HeadOf(row, dim, h) == Chunk(row, heads, dim)[h]
  {
    ChunkAt(row, heads, dim, h);
    var start := Times(h, dim);
    assert |row[start..start + dim]| == dim;
    forall c | 0 <= c < dim ensures HeadOf(row, dim, h)[c] == row[start..start + dim][c] {
    }
  }

  // ---------------------------------------------------------------- attention of one row

  /** `exp` of a masked score: an entry of minus infinity gives zero. */
  function Weight(b: Block, score: real, m: MaskEntry): real {
    if m.NegInfinity? then 0.0 else b.exp(score)
  }

  function Weights(b: Block, q: Vec, ks: seq<Vec>, mask: seq<MaskEntry>): (ws: seq<real>)
    requires b.scale != 0.0 && |mask| == |ks|
    ensures |ws| == |ks|
  {
    seq(|ks|, j requires 0 <= j < |ks| => Weight(b, Dot(q, ks[j]) / b.scale, mask[j]))
  }

  lemma {:induction false} SumPositive(xs: seq<real>, i: nat)
    requires i < |xs| && xs[i] > 0.0 && forall j :: 0 <= j < |xs| ==> xs[j] >= 0.0
    ensures Sum(xs) > 0.0
  {
    var front := xs[..|xs| - 1];
    if i < |front| {
      SumPositive(front, i);
    } else {
      SumNonNegative(front);
    }
  }

  lemma {:induction false} SumNonNegative(xs: seq<real>)
    requires forall j :: 0 <= j < |xs| ==> xs[j] >= 0.0
    ensures Sum(xs) >= 0.0
  {
    if xs != [] {
      SumNonNegative(xs[..|xs| - 1]);
    }
  }

  /** The values, weighted and summed, entry by entry. */
  function Mix(ws: seq<real>, total: real, vs: seq<Vec>, dim: nat): (out: Vec)
    requires |ws| == |vs| && total != 0.0
    ensures |out| == dim
  {
    seq(dim, c requires 0 <= c => Sum(seq(|vs|, j requires 0 <= j < |vs| => ws[j] / total * Entry(vs[j], c))))
  }

  /** The softmax of the masked scores, applied to the values; row `n` sees position `n`. */
  function Attend(b: Block, q: Vec, ks: seq<Vec>, vs: seq<Vec>, mask: seq<MaskEntry>, n: nat): (out: Vec)
    requires b.Valid() && |mask| == |ks| == |vs| && n < |mask| && mask[n].Zero?
  {
    var ws := Weights(b, q, ks, mask);
    SumPositive(ws, n);
    Mix(ws, Sum(ws), vs, b.headDim)
  }

  // ---------------------------------------------------------------- the causal mask

  /** Row `n` of the mask: a position attends to itself and to earlier positions. */
  function MaskRow(n: nat, total: nat): (r: seq<MaskEntry>)
    ensures |r| == total
  {
    seq(total, j => if j > n then NegInfinity else Zero)
  }

  /** The mask of `seqLen` rows after `pastLen`, for each of `rows` rows of the merged dimension. */
  function CausalMask(rows: nat, seqLen: nat, pastLen: nat): (m: seq<seq<seq<MaskEntry>>>)
    ensures |m| == rows && forall r :: 0 <= r < rows ==> |m[r]| == seqLen
    ensures forall r, i :: 0 <= r < rows && 0 <= i < seqLen ==> m[r][i] == MaskRow(pastLen + i, pastLen + seqLen)
  {
    seq(rows, _ => seq(seqLen, i requires 0 <= i < seqLen => MaskRow(pastLen + i, pastLen + seqLen)))
  }

  /** `compute_attention_mask`: fills a square mask in three nested loops, then narrows it to
      the last `seqLen` rows when there is a past. */
  method ComputeAttentionMask(rows: nat, seqLen: nat, pastLen: nat) returns (mask: seq<seq<seq<MaskEntry>>>)
    ensures mask == CausalMask(rows, seqLen, pastLen)
    ensures |mask| == rows && forall r :: 0 <= r < rows ==> |mask[r]| == seqLen
    ensures forall r, i :: 0 <= r < rows && 0 <= i < seqLen ==> |mask[r][i]| == pastLen + seqLen
    ensures forall r, i, j :: 0 <= r < rows && 0 <= i < seqLen && 0 <= j < pastLen + seqLen ==>
              (mask[r][i][j] == Zero <==> j <= pastLen + i)
  {
    var total := pastLen + seqLen;
    var full: seq<seq<seq<MaskEntry>>> := [];
    for r := 0 to rows
      invariant |full| == r
      invariant forall r' :: 0 <= r' < r ==> full[r'] == seq(total, i requires 0 <= i => MaskRow(i, total))
    {
      var square: seq<seq<MaskEntry>> := [];
      for i := 0 to total
        invariant |square| == i
        invariant forall i' :: 0 <= i' < i ==> square[i'] == MaskRow(i', total)
      {
        var row: seq<MaskEntry> := [];
        for j := 0 to total
          invariant |row| == j
          invariant forall j' :: 0 <= j' < j ==> row[j'] == MaskRow(i, total)[j']
        {
          row := row + [if j > i then NegInfinity else Zero];
        }
        square := square + [row];
      }
      full := full + [square];
    }
    if pastLen > 0 {
      mask := seq(|full|, r requires 0 <= r < |full| && |full[r]| == total => full[r][pastLen..pastLen + seqLen]);
    } else {
      mask := full;
    }
    forall r | 0 <= r < rows ensures mask[r] == CausalMask(rows, seqLen, pastLen)[r] {
      forall i | 0 <= i < seqLen ensures mask[r][i] == MaskRow(pastLen + i, total) {
        assert mask[r][i] == full[r][pastLen + i];
      }
    }
  }

  // ---------------------------------------------------------------- the block, as tensors

  /** Shape `(heads, len)`, with a vector at each place. */
  predicate Grid(x: seq<seq<Vec>>, heads: nat, len: nat) {
    |x| == heads && forall h :: 0 <= h < |x| ==> |x[h]| == len
  }

  /** Keys and values of shape `(batch, heads, len, dim)`. */
  datatype Cache = Cache(k: seq<seq<seq<Vec>>>, v: seq<seq<seq<Vec>>>, len: nat)

  ghost predicate CacheFits(b: Block, batch: nat, cache: Cache) {
    && |cache.k| == |cache.v| == batch
    && forall i :: 0 <= i < batch ==>
         Grid(cache.k[i], b.nKvHeads, cache.len) && Grid(cache.v[i], b.nKvHeads, cache.len)
  }

  /** Shape `(batch, seqLen)`. */
  ghost predicate Batch<T>(xs: seq<seq<T>>, batch: nat, seqLen: nat) {
    |xs| == batch && forall i :: 0 <= i < batch ==> |xs[i]| == seqLen
  }

  /** `reshape((.., heads, dim))` and `transpose(1, 2)` for one batch element. */
  function SplitHeads(rows: seq<Vec>, heads: nat, dim: nat): (r: seq<seq<Vec>>)
    ensures Grid(r, heads, |rows|)
    ensures forall h, i :: 0 <= h < heads && 0 <= i < |rows| ==> r[h][i] == HeadOf(rows[i], dim, h)
  {
    var split := seq(|rows|, i requires 0 <= i < |rows| => seq(heads, h requires 0 <= h => HeadOf(rows[i], dim, h)));
    Transpose(split, heads)
  }

  function Project(b: Block, rows: seq<Vec>, proj: Vec -> Vec): (r: seq<Vec>)
    ensures |r| == |rows| && forall i :: 0 <= i < |rows| ==> r[i] == proj(b.inputNorm(rows[i]))
  {
    seq(|rows|, i requires 0 <= i < |rows| => proj(b.inputNorm(rows[i])))
  }

  /** The rotation of every head of every row by the row's position. */
  function Rotate(b: Block, x: seq<seq<Vec>>, positions: seq<nat>): (r: seq<seq<Vec>>)
    requires Grid(x, |x|, |positions|)
    ensures Grid(r, |x|, |positions|)
    ensures forall h, i :: 0 <= h < |x| && 0 <= i < |positions| ==> r[h][i] == b.rope(x[h][i], positions[i])
  {
    seq(|x|, h requires 0 <= h < |x| =>
      seq(|positions|, i requires 0 <= i < |positions| => b.rope(x[h][i], positions[i])))
  }

  function QueryRow(b: Block, x: Vec, position: nat, h: nat): Vec {
    b.rope(HeadOf(b.qProj(b.inputNorm(x)), b.headDim, h), position)
  }

  function KeyRow(b: Block, x: Vec, position: nat, g: nat): Vec {
    b.rope(HeadOf(b.kProj(b.inputNorm(x)), b.headDim, g), position)
  }

  function ValueRow(b: Block, x: Vec, g: nat): Vec {
    HeadOf(b.vProj(b.inputNorm(x)), b.headDim, g)
  }

  /** The queries, keys and values of one batch element. */
  function Queries(b: Block, rows: seq<Vec>, positions: seq<nat>): (q: seq<seq<Vec>>)
    requires |positions| == |rows|
    ensures Grid(q, b.nHeads, |rows|)
    ensures forall h, i :: 0 <= h < b.nHeads && 0 <= i < |rows| ==> q[h][i] == QueryRow(b, rows[i], positions[i], h)
  {
    Rotate(b, SplitHeads(Project(b, rows, b.qProj), b.nHeads, b.headDim), positions)
  }

  function Keys(b: Block, rows: seq<Vec>, positions: seq<nat>): (k: seq<seq<Vec>>)
    requires |positions| == |rows|
    ensures Grid(k, b.nKvHeads, |rows|)
    ensures forall g, i :: 0 <= g < b.nKvHeads && 0 <= i < |rows| ==> k[g][i] == KeyRow(b, rows[i], positions[i], g)
  {
    Rotate(b, SplitHeads(Project(b, rows, b.kProj), b.nKvHeads, b.headDim), positions)
  }

  function Values(b: Block, rows: seq<Vec>): (v: seq<seq<Vec>>)
    ensures Grid(v, b.nKvHeads, |rows|)
    ensures forall g, i :: 0 <= g < b.nKvHeads && 0 <= i < |rows| ==> v[g][i] == ValueRow(b, rows[i], g)
  {
    SplitHeads(Project(b, rows, b.vProj), b.nKvHeads, b.headDim)
  }

  /** Concatenation along the sequence dimension, head by head. */
  function CatRows(past: seq<seq<Vec>>, x: seq<seq<Vec>>): (r: seq<seq<Vec>>)
    requires |past| == |x|
    ensures |r| == |x| && forall g :: 0 <= g < |x| ==> r[g] == past[g] + x[g]
  {
    seq(|x|, g requires 0 <= g < |x| => past[g] + x[g])
  }

  function PastLen(past: Option<Cache>): nat {
    if past.Some? then past.value.len else 0
  }

  /** The cache that a pass leaves: the past rows, then those of this pass. */
  function NewCache(b: Block, xs: seq<seq<Vec>>, positions: seq<seq<nat>>, seqLen: nat, past: Option<Cache>): (c: Cache)
    requires Batch(xs, |xs|, seqLen) && Batch(positions, |xs|, seqLen)
    requires past.Some? ==> CacheFits(b, |xs|, past.value)
    ensures CacheFits(b, |xs|, c) && c.len == PastLen(past) + seqLen
  {
    var k := seq(|xs|, i requires 0 <= i < |xs| => Keys(b, xs[i], positions[i]));
    var v := seq(|xs|, i requires 0 <= i < |xs| => Values(b, xs[i]));
    match past
    case None => Cache(k, v, seqLen)
    case Some(p) =>
      Cache(seq(|xs|, i requires 0 <= i < |xs| => CatRows(p.k[i], k[i])),
            seq(|xs|, i requires 0 <= i < |xs| => CatRows(p.v[i], v[i])),
            p.len + seqLen)
  }

  /** The key/value head of query head `h`, and its place in the group. */
  lemma GroupOf(b: Block, h: nat) returns (g: nat, j: nat)
    requires b.nHeads == Times(b.nKvHeads, b.nKvGroups) && h < b.nHeads
    ensures b.nKvGroups > 0 && KvHead(b, h) == h / b.nKvGroups && g == KvHead(b, h) && j == h % b.nKvGroups
    ensures g < b.nKvHeads && j < b.nKvGroups && h == Times(g, b.nKvGroups) + j
  {
    g, j := SplitIndex(b.nKvHeads, b.nKvGroups, h);
    TimesIsProduct(g, b.nKvGroups);
    QuotientIs(h, b.nKvGroups, g, j);
  }

  lemma QuotientIs(h: nat, n: nat, g: nat, j: nat)
    requires j < n && h == g * n + j
    ensures h / n == g && h % n == j
  {
    var q, r := h / n, h % n;
    assert h == q * n + r;
    QuotientUnique(n, q, r, g, j);
  }

  lemma QuotientUnique(n: nat, q: nat, r: nat, g: nat, j: nat)
    requires r < n && j < n && q * n + r == g * n + j
    ensures q == g && r == j
    decreases q
  {
    if q > 0 {
      AtLeastOnce(q, n);
    }
    if g > 0 {
      AtLeastOnce(g, n);
    }
    if q > 0 && g > 0 {
      assert (q - 1) * n == q * n - n && (g - 1) * n == g * n - n;
      QuotientUnique(n, q - 1, r, g - 1, j);
    }
  }

  lemma AtLeastOnce(x: nat, n: nat)
    requires x > 0
    ensures x * n >= n
  {
    assert x * n == (x - 1) * n + n;
  }

  /** `h / groups` */
  function KvHead(b: Block, h: nat): nat {
    if b.nKvGroups == 0 then 0 else h / b.nKvGroups
  }

  /** Merging batch and heads and repeating the key/value rows puts key/value head `h / groups`
      of batch element `i` at the merged index of query head `h` of the same batch element. */
  lemma HeadMapping<T>(b: Block, kv: seq<seq<T>>, i: nat, h: nat)
    requires b.nHeads == Times(b.nKvHeads, b.nKvGroups)
    requires Uniform(kv, b.nKvHeads) && i < |kv| && h < b.nHeads
    ensures KvHead(b, h) < b.nKvHeads && b.nKvGroups > 0 && KvHead(b, h) == h / b.nKvGroups
    ensures Times(i, b.nHeads) + h < |RepeatKv(Flatten(kv), b.nKvGroups)|
    ensures RepeatKv(Flatten(kv), b.nKvGroups)[Times(i, b.nHeads) + h] == kv[i][KvHead(b, h)]
  {
    hide RepeatKv, Flatten, KvHead, Times;
    var n, m := b.nKvGroups, b.nKvHeads;
    var g, j := GroupOf(b, h);
    FlattenAt(kv, m, i, g);
    RepeatKvAt(Flatten(kv), n, Times(i, m) + g, j);
    TimesDistributes(Times(i, m), g, n);
    TimesAssociates(i, m, n);
  }

  lemma MergedLength<T>(b: Block, kv: seq<seq<T>>)
    requires b.nHeads == Times(b.nKvHeads, b.nKvGroups) && Uniform(kv, b.nKvHeads)
    ensures |RepeatKv(Flatten(kv), b.nKvGroups)| == Times(|kv|, b.nHeads)
  {
    FlattenLength(kv, b.nKvHeads);
    RepeatKvLength(Flatten(kv), b.nKvGroups);
    TimesAssociates(|kv|, b.nKvHeads, b.nKvGroups);
  }

  /** Position `n` attends to the keys and values up to its own. */
  function AttendCausal(b: Block, q: Vec, ks: seq<Vec>, vs: seq<Vec>, n: nat): (out: Vec)
    requires b.Valid() && |ks| == |vs| && n < |ks|
  {
    Attend(b, q, ks, vs, MaskRow(n, |ks|), n)
  }

  /** Every position of a pass attends causally: what becomes of one query head. */
  function AttendHead(b: Block, q: seq<Vec>, k: seq<Vec>, v: seq<Vec>): (out: seq<Vec>)
    requires b.Valid() && |k| == |v| && |q| <= |k|
    ensures |out| == |q| && forall i :: 0 <= i < |q| ==> out[i] == AttendCausal(b, q[i], k, v, |k| - |q| + i)
  {
    seq(|q|, i requires 0 <= i < |q| => AttendCausal(b, q[i], k, v, |k| - |q| + i))
  }

  /** One row of the merged dimension: its queries against its keys and values under its mask. */
  function AttendRows(b: Block, q: seq<Vec>, k: seq<Vec>, v: seq<Vec>, mask: seq<seq<MaskEntry>>): (out: seq<Vec>)
    requires b.Valid() && |mask| == |q| && |k| == |v| && |q| <= |k|
    requires forall i :: 0 <= i < |q| ==> mask[i] == MaskRow(|k| - |q| + i, |k|)
    ensures out == AttendHead(b, q, k, v)
  {
    seq(|q|, i requires 0 <= i < |q| && mask[i] == MaskRow(|k| - |q| + i, |k|) =>
      Attend(b, q[i], k, v, mask[i], |k| - |q| + i))
  }

  /** The rows of the merged dimension have the shapes of a pass. */
  ghost predicate MergedFits(b: Block, q: seq<seq<Vec>>, k: seq<seq<Vec>>, v: seq<seq<Vec>>, rows: nat, seqLen: nat, total: nat) {
    && |q| == |k| == |v| == rows
    && forall r :: 0 <= r < rows ==> |q[r]| == seqLen && |k[r]| == |v[r]| == total
  }

  lemma MergedRowsFit(b: Block, q: seq<seq<seq<Vec>>>, full: Cache, seqLen: nat)
    requires b.Valid() && CacheFits(b, |q|, full) && forall i :: 0 <= i < |q| ==> Grid(q[i], b.nHeads, seqLen)
    ensures MergedFits(b, Flatten(q), RepeatKv(Flatten(full.k), b.nKvGroups), RepeatKv(Flatten(full.v), b.nKvGroups),
                       Times(|q|, b.nHeads), seqLen, full.len)
  {
    FlattenLength(q, b.nHeads);
    MergedLength(b, full.k);
    MergedLength(b, full.v);
    var qFlat := Flatten(q);
    var k, v := RepeatKv(Flatten(full.k), b.nKvGroups), RepeatKv(Flatten(full.v), b.nKvGroups);
    forall r: nat | r < Times(|q|, b.nHeads) ensures |qFlat[r]| == seqLen && |k[r]| == |v[r]| == full.len {
      var i, h := SplitIndex(|q|, b.nHeads, r);
      MergedAt(b, q, full.k, full.v, i, h, r);
      assert Grid(q[i], b.nHeads, seqLen) && Grid(full.k[i], b.nKvHeads, full.len) && Grid(full.v[i], b.nKvHeads, full.len);
    }
  }

  /** The attention of a whole pass, in the merged dimension. */
  function MergedAttention(b: Block, q: seq<seq<seq<Vec>>>, full: Cache, seqLen: nat, pastLen: nat)
    : (flat: seq<seq<Vec>>)
    requires b.Valid() && CacheFits(b, |q|, full) && full.len == pastLen + seqLen
    requires forall i :: 0 <= i < |q| ==> Grid(q[i], b.nHeads, seqLen)
    ensures |flat| == Times(|q|, b.nHeads)
  {
    MergedRowsFit(b, q, full, seqLen);
    var rows := Times(|q|, b.nHeads);
    var qFlat := Flatten(q);
    var k, v := RepeatKv(Flatten(full.k), b.nKvGroups), RepeatKv(Flatten(full.v), b.nKvGroups);
    var mask := CausalMask(rows, seqLen, pastLen);
    seq(rows, r requires 0 <= r < rows => AttendRows(b, qFlat[r], k[r], v[r], mask[r]))
  }

  /** Query head `h` of batch element `i` attends to key/value head `h / groups` of the same
      batch element, and to nothing else. */
  lemma AttentionByHead(b: Block, q: seq<seq<seq<Vec>>>, full: Cache, seqLen: nat, pastLen: nat, i: nat, h: nat)
    requires b.Valid() && CacheFits(b, |q|, full) && full.len == pastLen + seqLen
    requires forall i :: 0 <= i < |q| ==> Grid(q[i], b.nHeads, seqLen)
    requires i < |q| && h < b.nHeads
    ensures Grid(q[i], b.nHeads, seqLen) && Grid(full.k[i], b.nKvHeads, full.len) && Grid(full.v[i], b.nKvHeads, full.len)
    ensures KvHead(b, h) < b.nKvHeads
    ensures var attention := Chunk(MergedAttention(b, q, full, seqLen, pastLen), |q|, b.nHeads)[i];
            && |attention| == b.nHeads
            && attention[h] == AttendHead(b, q[i][h], full.k[i][KvHead(b, h)], full.v[i][KvHead(b, h)])
  {
    hide RepeatKv, Flatten, KvHead;
    assert Grid(q[i], b.nHeads, seqLen) && Grid(full.k[i], b.nKvHeads, full.len) && Grid(full.v[i], b.nKvHeads, full.len);
    var flat := MergedAttention(b, q, full, seqLen, pastLen);
    ChunkAt(flat, |q|, b.nHeads, i);
    var r := Times(i, b.nHeads) + h;
    MergedAt(b, q, full.k, full.v, i, h, r);
    TimesBelow(i, |q|, b.nHeads);
    assert Chunk(flat, |q|, b.nHeads)[i][h] == flat[r];
  }

  lemma MergedAt<T>(b: Block, q: seq<seq<T>>, k: seq<seq<T>>, v: seq<seq<T>>, i: nat, h: nat, r: nat)
    requires b.nHeads == Times(b.nKvHeads, b.nKvGroups) && |k| == |v| == |q| && i < |q| && h < b.nHeads
    requires Uniform(q, b.nHeads) && Uniform(k, b.nKvHeads) && Uniform(v, b.nKvHeads) && r == Times(i, b.nHeads) + h
    ensures KvHead(b, h) < b.nKvHeads
    ensures r < |Flatten(q)| && r < |RepeatKv(Flatten(k), b.nKvGroups)| && r < |RepeatKv(Flatten(v), b.nKvGroups)|
    ensures Flatten(q)[r] == q[i][h]
    ensures RepeatKv(Flatten(k), b.nKvGroups)[r] == k[i][KvHead(b, h)]
    ensures RepeatKv(Flatten(v), b.nKvGroups)[r] == v[i][KvHead(b, h)]
  {
    FlattenAt(q, b.nHeads, i, h);
    HeadMapping(b, k, i, h);
    HeadMapping(b, v, i, h);
  }

  // ---------------------------------------------------------------- the whole block

  /** From the attention output of a row to the output of the block: two residual additions. */
  function Finish(b: Block, x: Vec, attention: Vec): (out: Vec) {
    var h := Add(x, b.oProj(attention));
    Add(h, b.mlp(b.postNorm(h)))
  }

  function AllQueries(b: Block, xs: seq<seq<Vec>>, positions: seq<seq<nat>>, seqLen: nat): (q: seq<seq<seq<Vec>>>)
    requires Batch(xs, |xs|, seqLen) && Batch(positions, |xs|, seqLen)
    ensures |q| == |xs| && forall i :: 0 <= i < |q| ==> Grid(q[i], b.nHeads, seqLen)
    ensures forall i :: 0 <= i < |q| ==> q[i] == Queries(b, xs[i], positions[i])
  {
    seq(|xs|, i requires 0 <= i < |xs| => Queries(b, xs[i], positions[i]))
  }

  /** `transpose(1, 2)` and `reshape((.., hidden))` of one batch element, then the rest of the block. */
  function FinishRows(b: Block, rows: seq<Vec>, attention: seq<seq<Vec>>): (out: seq<Vec>)
    requires Grid(attention, |attention|, |rows|)
    ensures |out| == |rows|
    ensures forall s :: 0 <= s < |rows| ==> out[s] == Finish(b, rows[s], Flatten(Transpose(attention, |rows|)[s]))
  {
    seq(|rows|, s requires 0 <= s < |rows| => Finish(b, rows[s], Flatten(Transpose(attention, |rows|)[s])))
  }

  /** The attention of a whole pass, of shape `(batch, heads, seqLen)`. */
  function SplitAttention(b: Block, q: seq<seq<seq<Vec>>>, full: Cache, seqLen: nat, pastLen: nat)
    : (attention: seq<seq<seq<Vec>>>)
    requires b.Valid() && CacheFits(b, |q|, full) && full.len == pastLen + seqLen
    requires forall i :: 0 <= i < |q| ==> Grid(q[i], b.nHeads, seqLen)
    ensures |attention| == |q|
    ensures forall i :: 0 <= i < |q| ==> Grid(attention[i], b.nHeads, seqLen)
  {
    var attention := Chunk(MergedAttention(b, q, full, seqLen, pastLen), |q|, b.nHeads);
    forall i | 0 <= i < |q| ensures Grid(attention[i], b.nHeads, seqLen) {
      SplitAttentionFits(b, q, full, seqLen, pastLen, i);
    }
    attention
  }

  lemma SplitAttentionFits(b: Block, q: seq<seq<seq<Vec>>>, full: Cache, seqLen: nat, pastLen: nat, i: nat)
    requires b.Valid() && CacheFits(b, |q|, full) && full.len == pastLen + seqLen
    requires forall i :: 0 <= i < |q| ==> Grid(q[i], b.nHeads, seqLen)
    requires i < |q|
    ensures Grid(Chunk(MergedAttention(b, q, full, seqLen, pastLen), |q|, b.nHeads)[i], b.nHeads, seqLen)
  {
    ChunkAt(MergedAttention(b, q, full, seqLen, pastLen), |q|, b.nHeads, i);
    forall h | 0 <= h < b.nHeads
      ensures |Chunk(MergedAttention(b, q, full, seqLen, pastLen), |q|, b.nHeads)[i][h]| == seqLen
    {
      AttentionByHead(b, q, full, seqLen, pastLen, i, h);
    }
  }

  /** `forward_inner`: the output states; the new cache is `NewCache`. */
  function ForwardInner(b: Block, xs: seq<seq<Vec>>, positions: seq<seq<nat>>, seqLen: nat, past: Option<Cache>)
    : (out: seq<seq<Vec>>)
    requires b.Valid() && Batch(xs, |xs|, seqLen) && Batch(positions, |xs|, seqLen)
    requires past.Some? ==> CacheFits(b, |xs|, past.value)
    ensures Batch(out, |xs|, seqLen)
  {
    var q := AllQueries(b, xs, positions, seqLen);
    var attention := SplitAttention(b, q, NewCache(b, xs, positions, seqLen, past), seqLen, PastLen(past));
    seq(|xs|, i requires 0 <= i < |xs| => FinishRows(b, xs[i], attention[i]))
  }

  /** One output row, from its input row, its position and the keys and values of its own batch
      element; the row is number `n` of the sequence. */
  function ForwardRow(b: Block, x: Vec, position: nat, k: seq<seq<Vec>>, v: seq<seq<Vec>>, n: nat, total: nat): (out: Vec)
    requires b.Valid() && n < total && Grid(k, b.nKvHeads, total) && Grid(v, b.nKvHeads, total)
  {
    Finish(b, x, Flatten(HeadOutputs(b, x, position, k, v, n, total)))
  }

  function HeadOutputs(b: Block, x: Vec, position: nat, k: seq<seq<Vec>>, v: seq<seq<Vec>>, n: nat, total: nat): (heads: seq<Vec>)
    requires b.Valid() && n < total && Grid(k, b.nKvHeads, total) && Grid(v, b.nKvHeads, total)
    ensures |heads| == b.nHeads
    ensures forall h :: 0 <= h < b.nHeads ==> heads[h] == HeadOutput(b, x, position, k, v, n, total, h)
  {
    seq(b.nHeads, h requires 0 <= h < b.nHeads => HeadOutput(b, x, position, k, v, n, total, h))
  }

  /** Query head `h` of a row, with key/value head `h / groups`. */
  function HeadOutput(b: Block, x: Vec, position: nat, k: seq<seq<Vec>>, v: seq<seq<Vec>>, n: nat, total: nat, h: nat): (out: Vec)
    requires b.Valid() && n < total && h < b.nHeads
    requires Grid(k, b.nKvHeads, total) && Grid(v, b.nKvHeads, total)
  {
    KvHeadBelow(b, h);
    AttendCausal(b, QueryRow(b, x, position, h), k[KvHead(b, h)], v[KvHead(b, h)], n)
  }

  lemma KvHeadBelow(b: Block, h: nat)
    requires b.nHeads == Times(b.nKvHeads, b.nKvGroups) && h < b.nHeads
    ensures KvHead(b, h) < b.nKvHeads && b.nKvGroups > 0 && KvHead(b, h) == h / b.nKvGroups
  {
    var g, j := GroupOf(b, h);
  }

  /** The tensor pass computes row `s` of batch element `i` by `ForwardRow`, from the keys and
      values of that batch element alone. */
  lemma ForwardIsRowwise(b: Block, xs: seq<seq<Vec>>, positions: seq<seq<nat>>, seqLen: nat, past: Option<Cache>,
                         full: Cache, i: nat, s: nat)
    requires b.Valid() && Batch(xs, |xs|, seqLen) && Batch(positions, |xs|, seqLen)
    requires past.Some? ==> CacheFits(b, |xs|, past.value)
    requires full == NewCache(b, xs, positions, seqLen, past)
    requires i < |xs| && s < seqLen
    ensures Grid(full.k[i], b.nKvHeads, full.len) && Grid(full.v[i], b.nKvHeads, full.len)
    ensures ForwardInner(b, xs, positions, seqLen, past)[i][s] ==
              ForwardRow(b, xs[i][s], positions[i][s], full.k[i], full.v[i], PastLen(past) + s, full.len)
  {
    hide SplitAttention, ForwardRow;
    var q := AllQueries(b, xs, positions, seqLen);
    ForwardInnerAt(b, xs, positions, seqLen, past, q, full, i);
    QueriesAt(b, xs, positions, seqLen, q, i, s);
    FinishedRow(b, q, full, seqLen, PastLen(past), i, s, xs[i], positions[i][s], PastLen(past) + s);
  }

  lemma QueriesAt(b: Block, xs: seq<seq<Vec>>, positions: seq<seq<nat>>, seqLen: nat, q: seq<seq<seq<Vec>>>, i: nat, s: nat)
    requires Batch(xs, |xs|, seqLen) && Batch(positions, |xs|, seqLen) && q == AllQueries(b, xs, positions, seqLen)
    requires i < |xs| && s < seqLen
    ensures Grid(q[i], b.nHeads, seqLen)
    ensures forall h :: 0 <= h < b.nHeads ==> q[i][h][s] == QueryRow(b, xs[i][s], positions[i][s], h)
  {
    assert q[i] == Queries(b, xs[i], positions[i]);
  }

  lemma ForwardInnerAt(b: Block, xs: seq<seq<Vec>>, positions: seq<seq<nat>>, seqLen: nat, past: Option<Cache>,
                       q: seq<seq<seq<Vec>>>, full: Cache, i: nat)
    requires b.Valid() && Batch(xs, |xs|, seqLen) && Batch(positions, |xs|, seqLen)
    requires past.Some? ==> CacheFits(b, |xs|, past.value)
    requires q == AllQueries(b, xs, positions, seqLen) && full == NewCache(b, xs, positions, seqLen, past) && i < |xs|
    ensures ForwardInner(b, xs, positions, seqLen, past)[i] ==
              FinishRows(b, xs[i], SplitAttention(b, q, full, seqLen, PastLen(past))[i])
  {
  }

  lemma FinishedRow(b: Block, q: seq<seq<seq<Vec>>>, full: Cache, seqLen: nat, pastLen: nat, i: nat, s: nat,
                    rows: seq<Vec>, position: nat, n: nat)
    requires b.Valid() && CacheFits(b, |q|, full) && full.len == pastLen + seqLen && n == pastLen + s
    requires forall i :: 0 <= i < |q| ==> Grid(q[i], b.nHeads, seqLen)
    requires i < |q| && s < seqLen == |rows| && Grid(q[i], b.nHeads, seqLen)
    requires forall h :: 0 <= h < b.nHeads ==> q[i][h][s] == QueryRow(b, rows[s], position, h)
    ensures Grid(full.k[i], b.nKvHeads, full.len) && Grid(full.v[i], b.nKvHeads, full.len)
    ensures FinishRows(b, rows, SplitAttention(b, q, full, seqLen, pastLen)[i])[s] ==
              ForwardRow(b, rows[s], position, full.k[i], full.v[i], n, full.len)
  {
    RowOfHeads(b, q, full, seqLen, pastLen, i, s, rows[s], position, n);
  }

  lemma RowOfHeads(b: Block, q: seq<seq<seq<Vec>>>, full: Cache, seqLen: nat, pastLen: nat, i: nat, s: nat,
                   x: Vec, position: nat, n: nat)
    requires b.Valid() && CacheFits(b, |q|, full) && full.len == pastLen + seqLen && n == pastLen + s
    requires forall i :: 0 <= i < |q| ==> Grid(q[i], b.nHeads, seqLen)
    requires i < |q| && s < seqLen && Grid(q[i], b.nHeads, seqLen)
    requires forall h :: 0 <= h < b.nHeads ==> q[i][h][s] == QueryRow(b, x, position, h)
    ensures Grid(full.k[i], b.nKvHeads, full.len) && Grid(full.v[i], b.nKvHeads, full.len)
    ensures var attention := SplitAttention(b, q, full, seqLen, pastLen)[i];
            Transpose(attention, seqLen)[s] == HeadOutputs(b, x, position, full.k[i], full.v[i], n, full.len)
  {
    assert Grid(full.k[i], b.nKvHeads, full.len) && Grid(full.v[i], b.nKvHeads, full.len);
    var attention := SplitAttention(b, q, full, seqLen, pastLen)[i];
    forall h | 0 <= h < b.nHeads
      ensures attention[h][s] == HeadOutput(b, x, position, full.k[i], full.v[i], n, full.len, h)
    {
      AttentionByHead(b, q, full, seqLen, pastLen, i, h);
    }
  }

  // ---------------------------------------------------------------- the reshapes

  /** `reshape((.., heads, dim))` of rows of the full width. */
  function Reshaped(rows: seq<Vec>, heads: nat, dim: nat): (r: seq<seq<Vec>>)
    requires forall i :: 0 <= i < |rows| ==> |rows[i]| == Times(heads, dim)
    ensures |r| == |rows| && forall i :: 0 <= i < |rows| ==> |r[i]| == heads && r[i] == Chunk(rows[i], heads, dim)
  {
    seq(|rows|, i requires 0 <= i < |rows| => Chunk(rows[i], heads, dim))
  }

  /** For rows of the full width, splitting the heads is the reshape and the transposition. */
  lemma SplitHeadsIsReshape(rows: seq<Vec>, heads: nat, dim: nat)
    requires forall i :: 0 <= i < |rows| ==> |rows[i]| == Times(heads, dim)
    ensures SplitHeads(rows, heads, dim) == Transpose(Reshaped(rows, heads, dim), heads)
  {
    var one, two := SplitHeads(rows, heads, dim), Transpose(Reshaped(rows, heads, dim), heads);
    forall h: nat, i: nat | h < heads && i < |rows| ensures one[h][i] == two[h][i] {
      HeadOfIsChunk(rows[i], heads, dim, h);
    }
    forall h: nat | h < heads ensures one[h] == two[h] {
    }
  }
}
