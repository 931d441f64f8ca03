/**
 The elements of a batch do not influence each other: a pass over a batch is, element by
 element, the pass over a batch of one.
 */
module BatchElements {
  import opened Common
  import opened Attention
  import opened KvCache

  /** Element `i` of a chunk, as a batch of one. */
  function One(p: Piece, i: nat): (r: Piece)
    requires PieceFits(p, |p.xs|) && i < |p.xs|
    ensures |r.xs| == 1 && PieceFits(r, 1) && r.len == p.len && r.xs[0] == p.xs[i] && r.positions[0] == p.positions[i]
  {
    Piece([p.xs[i]], [p.positions[i]], p.len)
  }

  function OneCache(c: Cache, i: nat): Cache
    requires i < |c.k| && i < |c.v|
  {
    Cache([c.k[i]], [c.v[i]], c.len)
  }

  function OnePast(b: Block, past: Option<Cache>, batch: nat, i: nat): (r: Option<Cache>)
    requires (past.Some? ==> CacheFits(b, batch, past.value)) && i < batch
    ensures r.Some? ==> CacheFits(b, 1, r.value)
  {
    match past
    case None => None
    case Some(c) => assert Grid(c.k[i], b.nKvHeads, c.len) && Grid(c.v[i], b.nKvHeads, c.len); Some(OneCache(c, i))
  }

  lemma CacheOfOne(b: Block, p: Piece, past: Option<Cache>, i: nat)
    requires PieceFits(p, |p.xs|) && (past.Some? ==> CacheFits(b, |p.xs|, past.value)) && i < |p.xs|
    ensures Some(CacheAfter(b, One(p, i), OnePast(b, past, |p.xs|, i))) ==
              OnePast(b, Some(CacheAfter(b, p, past)), |p.xs|, i)
  {
    hide CacheAfter, Keys, Values;
    var all, one := CacheAfter(b, p, past), CacheAfter(b, One(p, i), OnePast(b, past, |p.xs|, i));
    assert Grid(all.k[i], b.nKvHeads, all.len) && Grid(all.v[i], b.nKvHeads, all.len);
    assert Grid(one.k[0], b.nKvHeads, one.len) && Grid(one.v[0], b.nKvHeads, one.len);
    forall g: nat | g < b.nKvHeads ensures one.k[0][g] == all.k[i][g] && one.v[0][g] == all.v[i][g] {
      CacheAt(b, p, past, i, g);
      CacheAt(b, One(p, i), OnePast(b, past, |p.xs|, i), 0, g);
    }
    assert one.k[0] == all.k[i] && one.v[0] == all.v[i];
    assert one.k == [all.k[i]] && one.v == [all.v[i]];
  }

  lemma PassOfOne(b: Block, p: Piece, past: Option<Cache>, i: nat)
    requires b.Valid() && PieceFits(p, |p.xs|) && (past.Some? ==> CacheFits(b, |p.xs|, past.value)) && i < |p.xs|
    ensures Pass(b, One(p, i), OnePast(b, past, |p.xs|, i)) == [Pass(b, p, past)[i]]
  {
    hide CacheAfter, Pass, ForwardRow;
    var past1 := OnePast(b, past, |p.xs|, i);
    var all, one := CacheAfter(b, p, past), CacheAfter(b, One(p, i), past1);
    CacheOfOne(b, p, past, i);
    forall s: nat | s < p.len ensures Pass(b, One(p, i), past1)[0][s] == Pass(b, p, past)[i][s] {
      PassRow(b, p, past, all, i, s);
      PassRow(b, One(p, i), past1, one, 0, s);
    }
    assert Pass(b, One(p, i), past1)[0] == Pass(b, p, past)[i];
  }

  function OnePasts(blocks: seq<Block>, pasts: seq<Option<Cache>>, batch: nat, i: nat): (r: seq<Option<Cache>>)
    requires StackFits(blocks, batch, pasts) && i < batch
    ensures StackFits(blocks, 1, r)
  {
    seq(|blocks|, l requires 0 <= l < |blocks| => OnePast(blocks[l], pasts[l], batch, i))
  }

  /** Through a whole stack, the rows and the caches of an element of the batch are those of
      that element alone. */
  lemma {:induction false} StackOfOne(blocks: seq<Block>, p: Piece, pasts: seq<Option<Cache>>, i: nat)
    requires PieceFits(p, |p.xs|) && StackFits(blocks, |p.xs|, pasts) && i < |p.xs|
    ensures StackPass(blocks, One(p, i), OnePasts(blocks, pasts, |p.xs|, i)) == One(StackPass(blocks, p, pasts), i)
    ensures StackCaches(blocks, One(p, i), OnePasts(blocks, pasts, |p.xs|, i)) ==
              OnePasts(blocks, StackCaches(blocks, p, pasts), |p.xs|, i)
  {
    hide CacheAfter, Pass;
    if blocks != [] {
      var b, past, batch := blocks[0], pasts[0], |p.xs|;
      PassOfOne(b, p, past, i);
      CacheOfOne(b, p, past, i);
      var p' := Through(b, p, past);
      var ones := OnePasts(blocks, pasts, batch, i);
      assert ones[0] == OnePast(b, past, batch, i);
      assert ones[1..] == OnePasts(blocks[1..], pasts[1..], batch, i);
      assert Through(b, One(p, i), ones[0]) == One(p', i);
      StackOfOne(blocks[1..], p', pasts[1..], i);
      var caches := StackCaches(blocks, p, pasts);
      assert caches[1..] == StackCaches(blocks[1..], p', pasts[1..]);
      assert OnePasts(blocks, caches, batch, i)[1..] == OnePasts(blocks[1..], caches[1..], batch, i);
    }
  }
}
