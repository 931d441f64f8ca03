/**
 Incremental decoding: passes over consecutive chunks of a sequence, each layer carrying its
 cache on, compute exactly what one pass over the whole sequence computes.
 */
module KvCache {
  import opened Common
  import opened Attention

  // ---------------------------------------------------------------- causality

  lemma {:induction false} SumTail(xs: seq<real>, m: nat)
    requires m <= |xs| && forall j :: m <= j < |xs| ==> xs[j] == 0.0
    ensures Sum(xs) == Sum(xs[..m])
    decreases |xs|
  {
    if m < |xs| {
      var front := xs[..|xs| - 1];
      SumTail(front, m);
      assert front[..m] == xs[..m];
    } else {
      assert xs[..m] == xs;
    }
  }

  lemma MixTail(ws: seq<real>, total: real, vs: seq<Vec>, dim: nat, m: nat)
    requires |ws| == |vs| && m <= |ws| && total != 0.0 && forall j :: m <= j < |ws| ==> ws[j] == 0.0
    ensures Mix(ws, total, vs, dim) == Mix(ws[..m], total, vs[..m], dim)
  {
    forall c: nat | c < dim
      ensures Mix(ws, total, vs, dim)[c] == Mix(ws[..m], total, vs[..m], dim)[c]
    {
      var all := seq(|vs|, j requires 0 <= j < |vs| => ws[j] / total * Entry(vs[j], c));
      var first := seq(|vs[..m]|, j requires 0 <= j < |vs[..m]| => ws[..m][j] / total * Entry(vs[..m][j], c));
      SumTail(all, m);
      forall j | 0 <= j < m ensures all[..m][j] == first[j] {
        assert ws[..m][j] == ws[j] && vs[..m][j] == vs[j];
      }
      assert all[..m] == first;
    }
  }

  /** Keys and values after a position have no influence on it. */
  lemma AttentionIsCausal(b: Block, q: Vec, ks: seq<Vec>, vs: seq<Vec>, n: nat, m: nat)
    requires b.Valid() && |ks| == |vs| && n < m <= |ks|
    ensures AttendCausal(b, q, ks, vs, n) == AttendCausal(b, q, ks[..m], vs[..m], n)
  {
    var ws := Weights(b, q, ks, MaskRow(n, |ks|));
    var ws' := Weights(b, q, ks[..m], MaskRow(n, m));
    assert ws[..m] == ws';
    SumTail(ws, m);
    SumPositive(ws, n);
    MixTail(ws, Sum(ws), vs, b.headDim, m);
  }

  /** Each head cut to its first `m` positions. */
  function Cut(x: seq<seq<Vec>>, m: nat): (r: seq<seq<Vec>>)
    requires forall g :: 0 <= g < |x| ==> m <= |x[g]|
    ensures |r| == |x| && forall g :: 0 <= g < |x| ==> r[g] == x[g][..m]
  {
    seq(|x|, g requires 0 <= g < |x| => x[g][..m])
  }

  lemma RowIsCausal(b: Block, x: Vec, position: nat, k: seq<seq<Vec>>, v: seq<seq<Vec>>, n: nat, total: nat, m: nat)
    requires b.Valid() && n < m <= total && Grid(k, b.nKvHeads, total) && Grid(v, b.nKvHeads, total)
    ensures ForwardRow(b, x, position, k, v, n, total) == ForwardRow(b, x, position, Cut(k, m), Cut(v, m), n, m)
  {
    forall h | 0 <= h < b.nHeads
      ensures HeadOutput(b, x, position, k, v, n, total, h) == HeadOutput(b, x, position, Cut(k, m), Cut(v, m), n, m, h)
    {
      KvHeadBelow(b, h);
      AttentionIsCausal(b, QueryRow(b, x, position, h), k[KvHead(b, h)], v[KvHead(b, h)], n, m);
    }
    assert HeadOutputs(b, x, position, k, v, n, total) == HeadOutputs(b, x, position, Cut(k, m), Cut(v, m), n, m);
  }

  // ---------------------------------------------------------------- two chunks, one block

  /** Concatenation along the sequence dimension, by batch element. */
  function Cat<T>(xs: seq<seq<T>>, ys: seq<seq<T>>): (r: seq<seq<T>>)
    requires |xs| == |ys|
    ensures |r| == |xs| && forall i :: 0 <= i < |xs| ==> r[i] == xs[i] + ys[i]
  {
    seq(|xs|, i requires 0 <= i < |xs| => xs[i] + ys[i])
  }

  /** A chunk of the sequence: hidden states and absolute positions, of shape `(batch, len)`. */
  datatype Piece = Piece(xs: seq<seq<Vec>>, positions: seq<seq<nat>>, len: nat)

  ghost predicate PieceFits(p: Piece, batch: nat) {
    Batch(p.xs, batch, p.len) && Batch(p.positions, batch, p.len)
  }

  function Join(p: Piece, q: Piece): (r: Piece)
    requires |p.xs| == |q.xs| && |p.positions| == |q.positions|
    ensures |r.xs| == |p.xs| && r.len == p.len + q.len
    ensures PieceFits(p, |p.xs|) && PieceFits(q, |q.xs|) ==> PieceFits(r, |p.xs|)
  {
    Piece(Cat(p.xs, q.xs), Cat(p.positions, q.positions), p.len + q.len)
  }

  function CacheAfter(b: Block, p: Piece, past: Option<Cache>): (c: Cache)
    requires PieceFits(p, |p.xs|) && (past.Some? ==> CacheFits(b, |p.xs|, past.value))
    ensures CacheFits(b, |p.xs|, c) && c.len == PastLen(past) + p.len
  {
    NewCache(b, p.xs, p.positions, p.len, past)
  }

  function Pass(b: Block, p: Piece, past: Option<Cache>): (out: seq<seq<Vec>>)
    requires b.Valid() && PieceFits(p, |p.xs|) && (past.Some? ==> CacheFits(b, |p.xs|, past.value))
    ensures Batch(out, |p.xs|, p.len)
  {
    ForwardInner(b, p.xs, p.positions, p.len, past)
  }

  lemma KeysJoin(b: Block, rows: seq<Vec>, more: seq<Vec>, ps: seq<nat>, qs: seq<nat>, g: nat)
    requires |ps| == |rows| && |qs| == |more| && g < b.nKvHeads
    ensures Keys(b, rows + more, ps + qs)[g] == Keys(b, rows, ps)[g] + Keys(b, more, qs)[g]
  {
    hide Keys, KeyRow;
    var joined, one, two := Keys(b, rows + more, ps + qs)[g], Keys(b, rows, ps)[g], Keys(b, more, qs)[g];
    forall i: nat | i < |joined| ensures joined[i] == (one + two)[i] {
      assert joined[i] == KeyRow(b, (rows + more)[i], (ps + qs)[i], g);
    }
  }

  lemma ValuesJoin(b: Block, rows: seq<Vec>, more: seq<Vec>, g: nat)
    requires g < b.nKvHeads
    ensures Values(b, rows + more)[g] == Values(b, rows)[g] + Values(b, more)[g]
  {
    hide Values, ValueRow;
    var joined, one, two := Values(b, rows + more)[g], Values(b, rows)[g], Values(b, more)[g];
    forall i: nat | i < |joined| ensures joined[i] == (one + two)[i] {
      assert joined[i] == ValueRow(b, (rows + more)[i], g);
    }
  }

  function PastKeys(past: Option<Cache>, i: nat, g: nat): seq<Vec>
    requires past.Some? ==> i < |past.value.k| && g < |past.value.k[i]|
  {
    if past.Some? then past.value.k[i][g] else []
  }

  function PastValues(past: Option<Cache>, i: nat, g: nat): seq<Vec>
    requires past.Some? ==> i < |past.value.v| && g < |past.value.v[i]|
  {
    if past.Some? then past.value.v[i][g] else []
  }

  /** One head of the cache that a pass leaves. */
  lemma CacheAt(b: Block, p: Piece, past: Option<Cache>, i: nat, g: nat)
    requires PieceFits(p, |p.xs|) && (past.Some? ==> CacheFits(b, |p.xs|, past.value))
    requires i < |p.xs| && g < b.nKvHeads
    ensures past.Some? ==> |past.value.k| == |past.value.v| == |p.xs| && |past.value.k[i]| == |past.value.v[i]| == b.nKvHeads
    ensures |CacheAfter(b, p, past).k| == |CacheAfter(b, p, past).v| == |p.xs|
    ensures |CacheAfter(b, p, past).k[i]| == |CacheAfter(b, p, past).v[i]| == b.nKvHeads
    ensures CacheAfter(b, p, past).k[i][g] == PastKeys(past, i, g) + Keys(b, p.xs[i], p.positions[i])[g]
    ensures CacheAfter(b, p, past).v[i][g] == PastValues(past, i, g) + Values(b, p.xs[i])[g]
  {
    hide Keys, Values;
    if past.Some? {
      assert Grid(past.value.k[i], b.nKvHeads, past.value.len) && Grid(past.value.v[i], b.nKvHeads, past.value.len);
    }
  }

  /** The cache after two chunks is the cache after their concatenation. */
  lemma CacheJoins(b: Block, p: Piece, q: Piece, past: Option<Cache>)
    requires PieceFits(p, |p.xs|) && PieceFits(q, |p.xs|) && (past.Some? ==> CacheFits(b, |p.xs|, past.value))
    ensures CacheAfter(b, Join(p, q), past) == CacheAfter(b, q, Some(CacheAfter(b, p, past)))
  {
    hide CacheAfter;
    var one, two := CacheAfter(b, Join(p, q), past), CacheAfter(b, q, Some(CacheAfter(b, p, past)));
    forall i: nat | i < |p.xs| ensures one.k[i] == two.k[i] && one.v[i] == two.v[i] {
      assert Grid(one.k[i], b.nKvHeads, one.len) && Grid(one.v[i], b.nKvHeads, one.len);
      assert Grid(two.k[i], b.nKvHeads, two.len) && Grid(two.v[i], b.nKvHeads, two.len);
      forall g: nat | g < b.nKvHeads ensures one.k[i][g] == two.k[i][g] && one.v[i][g] == two.v[i][g] {
        HeadJoins(b, p, q, past, i, g);
      }
    }
    assert one.k == two.k && one.v == two.v;
  }

  lemma HeadJoins(b: Block, p: Piece, q: Piece, past: Option<Cache>, i: nat, g: nat)
    requires PieceFits(p, |p.xs|) && PieceFits(q, |p.xs|) && (past.Some? ==> CacheFits(b, |p.xs|, past.value))
    requires i < |p.xs| && g < b.nKvHeads
    ensures var one, two := CacheAfter(b, Join(p, q), past), CacheAfter(b, q, Some(CacheAfter(b, p, past)));
            && i < |one.k| && i < |one.v| && g < |one.k[i]| && g < |one.v[i]|
            && i < |two.k| && i < |two.v| && g < |two.k[i]| && g < |two.v[i]|
            && one.k[i][g] == two.k[i][g] && one.v[i][g] == two.v[i][g]
  {
    hide CacheAfter, Keys, Values;
    CacheAt(b, Join(p, q), past, i, g);
    CacheAt(b, p, past, i, g);
    CacheAt(b, q, Some(CacheAfter(b, p, past)), i, g);
    KeysJoin(b, p.xs[i], q.xs[i], p.positions[i], q.positions[i], g);
    ValuesJoin(b, p.xs[i], q.xs[i], g);
  }

  /** One output row, from the cache that its own pass leaves. */
  lemma PassRow(b: Block, p: Piece, past: Option<Cache>, c: Cache, i: nat, s: nat)
    requires b.Valid() && PieceFits(p, |p.xs|) && (past.Some? ==> CacheFits(b, |p.xs|, past.value))
    requires c == CacheAfter(b, p, past) && i < |p.xs| && s < p.len
    ensures Grid(c.k[i], b.nKvHeads, c.len) && Grid(c.v[i], b.nKvHeads, c.len)
    ensures |p.xs[i]| == |p.positions[i]| == |Pass(b, p, past)[i]| == p.len
    ensures Pass(b, p, past)[i][s] ==
              ForwardRow(b, p.xs[i][s], p.positions[i][s], c.k[i], c.v[i], PastLen(past) + s, c.len)
  {
    hide ForwardInner, NewCache, ForwardRow;
    ForwardIsRowwise(b, p.xs, p.positions, p.len, past, c, i, s);
  }

  /** Cutting the cache of a longer pass to a shorter one leaves the cache of the shorter pass. */
  lemma CutJoined(b: Block, p: Piece, q: Piece, past: Option<Cache>, one: Cache, two: Cache, i: nat)
    requires PieceFits(p, |p.xs|) && PieceFits(q, |p.xs|) && (past.Some? ==> CacheFits(b, |p.xs|, past.value))
    requires one == CacheAfter(b, p, past) && two == CacheAfter(b, Join(p, q), past) && i < |p.xs|
    ensures Grid(two.k[i], b.nKvHeads, two.len) && Grid(two.v[i], b.nKvHeads, two.len) && one.len <= two.len
    ensures Cut(two.k[i], one.len) == one.k[i] && Cut(two.v[i], one.len) == one.v[i]
  {
    hide CacheAfter, Keys, Values;
    CacheJoins(b, p, q, past);
    assert Grid(one.k[i], b.nKvHeads, one.len) && Grid(one.v[i], b.nKvHeads, one.len);
    assert Grid(two.k[i], b.nKvHeads, two.len) && Grid(two.v[i], b.nKvHeads, two.len);
    forall g: nat | g < b.nKvHeads
      ensures two.k[i][g][..one.len] == one.k[i][g] && two.v[i][g][..one.len] == one.v[i][g]
    {
      CacheAt(b, q, Some(one), i, g);
    }
  }

  /** One block: the rows of two passes are the rows of one pass over both chunks. */
  lemma PassJoins(b: Block, p: Piece, q: Piece, past: Option<Cache>)
    requires b.Valid() && PieceFits(p, |p.xs|) && PieceFits(q, |p.xs|)
    requires past.Some? ==> CacheFits(b, |p.xs|, past.value)
    ensures Pass(b, Join(p, q), past) == Cat(Pass(b, p, past), Pass(b, q, Some(CacheAfter(b, p, past))))
  {
    hide CacheAfter, Pass;
    var one := CacheAfter(b, p, past);
    var joined, first, second := Pass(b, Join(p, q), past), Pass(b, p, past), Pass(b, q, Some(one));
    forall i: nat, s: nat | i < |p.xs| && s < p.len + q.len
      ensures i < |joined| && i < |first| && i < |second| && s < |joined[i]| && s < |first[i] + second[i]|
      ensures joined[i][s] == (first[i] + second[i])[s]
    {
      if s < p.len {
        EarlyRow(b, p, q, past, i, s);
      } else {
        LateRow(b, p, q, past, i, s - p.len);
      }
    }
    forall i: nat | i < |p.xs| ensures joined[i] == first[i] + second[i] {
      assert |joined[i]| == p.len + q.len;
    }
  }

  lemma EarlyRow(b: Block, p: Piece, q: Piece, past: Option<Cache>, i: nat, s: nat)
    requires b.Valid() && PieceFits(p, |p.xs|) && PieceFits(q, |p.xs|)
    requires past.Some? ==> CacheFits(b, |p.xs|, past.value)
    requires i < |p.xs| && s < p.len
    ensures s < |Pass(b, Join(p, q), past)[i]| && s < |Pass(b, p, past)[i]|
    ensures Pass(b, Join(p, q), past)[i][s] == Pass(b, p, past)[i][s]
  {
    hide CacheAfter, Pass, ForwardRow;
    var one, two := CacheAfter(b, p, past), CacheAfter(b, Join(p, q), past);
    PassRow(b, p, past, one, i, s);
    PassRow(b, Join(p, q), past, two, i, s);
    CutJoined(b, p, q, past, one, two, i);
    RowIsCausal(b, p.xs[i][s], p.positions[i][s], two.k[i], two.v[i], PastLen(past) + s, two.len, one.len);
  }

  lemma LateRow(b: Block, p: Piece, q: Piece, past: Option<Cache>, i: nat, s: nat)
    requires b.Valid() && PieceFits(p, |p.xs|) && PieceFits(q, |p.xs|)
    requires past.Some? ==> CacheFits(b, |p.xs|, past.value)
    requires i < |p.xs| && s < q.len
    ensures p.len + s < |Pass(b, Join(p, q), past)[i]| && s < |Pass(b, q, Some(CacheAfter(b, p, past)))[i]|
    ensures Pass(b, Join(p, q), past)[i][p.len + s] == Pass(b, q, Some(CacheAfter(b, p, past)))[i][s]
  {
    hide CacheAfter, Pass, ForwardRow;
    var one, two := CacheAfter(b, p, past), CacheAfter(b, Join(p, q), past);
    CacheJoins(b, p, q, past);
    PassRow(b, q, Some(one), two, i, s);
    PassRow(b, Join(p, q), past, two, i, p.len + s);
  }

  // ---------------------------------------------------------------- a stack of blocks

  ghost predicate StackFits(blocks: seq<Block>, batch: nat, pasts: seq<Option<Cache>>) {
    && |pasts| == |blocks|
    && forall l :: 0 <= l < |blocks| ==>
         blocks[l].Valid() && (pasts[l].Some? ==> CacheFits(blocks[l], batch, pasts[l].value))
  }

  /** The states that leave a block, at the positions at which they entered. */
  function Through(b: Block, p: Piece, past: Option<Cache>): (r: Piece)
    requires b.Valid() && PieceFits(p, |p.xs|) && (past.Some? ==> CacheFits(b, |p.xs|, past.value))
    ensures PieceFits(r, |p.xs|) && |r.xs| == |p.xs| && r.positions == p.positions && r.len == p.len
  {
    Piece(Pass(b, p, past), p.positions, p.len)
  }

  /** One pass through a stack of blocks, each with its own past. */
  function StackPass(blocks: seq<Block>, p: Piece, pasts: seq<Option<Cache>>): (r: Piece)
    requires PieceFits(p, |p.xs|) && StackFits(blocks, |p.xs|, pasts)
    ensures PieceFits(r, |p.xs|) && |r.xs| == |p.xs| && r.positions == p.positions && r.len == p.len
  {
    if blocks == [] then p else StackPass(blocks[1..], Through(blocks[0], p, pasts[0]), pasts[1..])
  }

  /** The caches that the pass leaves, as the pasts of the next pass. */
  function StackCaches(blocks: seq<Block>, p: Piece, pasts: seq<Option<Cache>>): (r: seq<Option<Cache>>)
    requires PieceFits(p, |p.xs|) && StackFits(blocks, |p.xs|, pasts)
    ensures StackFits(blocks, |p.xs|, r)
  {
    if blocks == [] then
      []
    else
      var above := StackCaches(blocks[1..], Through(blocks[0], p, pasts[0]), pasts[1..]);
      OneMoreFits(blocks, |p.xs|, CacheAfter(blocks[0], p, pasts[0]), above);
      [Some(CacheAfter(blocks[0], p, pasts[0]))] + above
  }

  lemma OneMoreFits(blocks: seq<Block>, batch: nat, cache: Cache, above: seq<Option<Cache>>)
    requires blocks != [] && blocks[0].Valid() && CacheFits(blocks[0], batch, cache)
    requires StackFits(blocks[1..], batch, above)
    ensures StackFits(blocks, batch, [Some(cache)] + above)
  {
    hide CacheFits;
    var all := [Some(cache)] + above;
    forall l | 0 <= l < |blocks|
      ensures blocks[l].Valid() && (all[l].Some? ==> CacheFits(blocks[l], batch, all[l].value))
    {
      assert l > 0 ==> blocks[l] == blocks[1..][l - 1];
    }
  }

  /** Two passes through a stack, the caches carried on, are one pass over both chunks: they
      give the same rows and leave the same keys and values. */
  lemma {:induction false} TwoPasses(blocks: seq<Block>, p: Piece, q: Piece, pasts: seq<Option<Cache>>)
    requires PieceFits(p, |p.xs|) && PieceFits(q, |p.xs|) && StackFits(blocks, |p.xs|, pasts)
    ensures |q.xs| == |p.xs|
    ensures StackPass(blocks, Join(p, q), pasts) ==
              Join(StackPass(blocks, p, pasts), StackPass(blocks, q, StackCaches(blocks, p, pasts)))
    ensures StackCaches(blocks, Join(p, q), pasts) == StackCaches(blocks, q, StackCaches(blocks, p, pasts))
  {
    hide CacheAfter, Pass;
    if blocks != [] {
      var b, past := blocks[0], pasts[0];
      var kept := Some(CacheAfter(b, p, past));
      PassJoins(b, p, q, past);
      CacheJoins(b, p, q, past);
      var p', q' := Through(b, p, past), Through(b, q, kept);
      assert Through(b, Join(p, q), past) == Join(p', q');
      TwoPasses(blocks[1..], p', q', pasts[1..]);
      var caches := StackCaches(blocks, p, pasts);
      assert caches[0] == kept && caches[1..] == StackCaches(blocks[1..], p', pasts[1..]);
    }
  }

  // ---------------------------------------------------------------- any number of chunks

  ghost predicate AllFit(pieces: seq<Piece>, batch: nat) {
    forall c :: 0 <= c < |pieces| ==> PieceFits(pieces[c], batch)
  }

  lemma MoreFits(first: Piece, more: seq<Piece>, batch: nat)
    requires PieceFits(first, batch) && AllFit(more, batch)
    ensures AllFit([first] + more, batch)
  {
  }

  /** The whole sequence of which `pieces` are the chunks. */
  function Whole(pieces: seq<Piece>, batch: nat): (r: Piece)
    requires pieces != [] && AllFit(pieces, batch)
    ensures PieceFits(r, batch)
  {
    if |pieces| == 1 then pieces[0] else Join(pieces[0], Whole(pieces[1..], batch))
  }

  /** The outputs of the incremental passes over `pieces`, from left to right. */
  function Outputs(blocks: seq<Block>, pieces: seq<Piece>, batch: nat, pasts: seq<Option<Cache>>): (r: seq<Piece>)
    requires AllFit(pieces, batch) && StackFits(blocks, batch, pasts)
    ensures |r| == |pieces| && AllFit(r, batch)
  {
    if pieces == [] then
      []
    else
      assert PieceFits(pieces[0], batch);
      var more := Outputs(blocks, pieces[1..], batch, StackCaches(blocks, pieces[0], pasts));
      MoreFits(StackPass(blocks, pieces[0], pasts), more, batch);
      [StackPass(blocks, pieces[0], pasts)] + more
  }

  /** The caches after the incremental passes over `pieces`. */
  function FinalCaches(blocks: seq<Block>, pieces: seq<Piece>, batch: nat, pasts: seq<Option<Cache>>): (r: seq<Option<Cache>>)
    requires AllFit(pieces, batch) && StackFits(blocks, batch, pasts)
    ensures StackFits(blocks, batch, r)
  {
    if pieces == [] then
      pasts
    else
      assert PieceFits(pieces[0], batch);
      FinalCaches(blocks, pieces[1..], batch, StackCaches(blocks, pieces[0], pasts))
  }

  /** However a sequence is cut into chunks, the incremental passes through any stack of blocks
      give the rows of one full pass, and leave its keys and values in every block. */
  lemma {:induction false} IncrementalIsFull(blocks: seq<Block>, pieces: seq<Piece>, batch: nat, pasts: seq<Option<Cache>>)
    requires pieces != [] && AllFit(pieces, batch) && StackFits(blocks, batch, pasts)
    ensures Whole(Outputs(blocks, pieces, batch, pasts), batch) == StackPass(blocks, Whole(pieces, batch), pasts)
    ensures FinalCaches(blocks, pieces, batch, pasts) == StackCaches(blocks, Whole(pieces, batch), pasts)
    decreases |pieces|
  {
    hide StackPass, StackCaches;
    var first, rest := pieces[0], pieces[1..];
    assert PieceFits(first, batch);
    if rest != [] {
      var kept := StackCaches(blocks, first, pasts);
      IncrementalIsFull(blocks, rest, batch, kept);
      TwoPasses(blocks, first, Whole(rest, batch), pasts);
      var outs := Outputs(blocks, pieces, batch, pasts);
      assert outs[1..] == Outputs(blocks, rest, batch, kept);
    } else {
      assert FinalCaches(blocks, rest, batch, StackCaches(blocks, first, pasts)) == StackCaches(blocks, first, pasts);
    }
  }
}
