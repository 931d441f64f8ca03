/**
 The compute engine: blocks loaded by layer, and the pass of the terminal hop through a range
 of layers, for one entry.
 */
module Engine {
  import opened Common
  import opened Tensors
  import opened Attention
  import opened KvCache

  /** A whole sequence: `forward` numbers its positions from 0 for every batch element. */
  function Sequence(xs: seq<seq<Vec>>, len: nat): (p: Piece)
    requires Batch(xs, |xs|, len)
    ensures p.xs == xs && p.len == len && PieceFits(p, |xs|)
    ensures forall i, s :: 0 <= i < |xs| && 0 <= s < len ==> p.positions[i][s] == s
  {
    Piece(xs, seq(|xs|, _ => seq(len, s requires 0 <= s => s)), len)
  }

  /** One past the last layer of `start..=end`. */
  function Stop(start: nat, end: nat): nat {
    if start <= end then end + 1 else start
  }

  predicate Loaded(blocks: map<nat, Block>, start: nat, end: nat) {
    forall l :: start <= l <= end ==> l in blocks
  }

  ghost predicate AllValid(blocks: map<nat, Block>) {
    forall l :: l in blocks ==> blocks[l].Valid()
  }

  /** The blocks of layers `start` up to, but not including, `end`. */
  function Layers(blocks: map<nat, Block>, start: nat, end: nat): (r: seq<Block>)
    requires start <= end && forall l: nat :: start <= l < end ==> l in blocks
    ensures |r| == end - start
  {
    seq(end - start, i requires 0 <= i < end - start => blocks[start + i])
  }

  function NoPasts(n: nat): (r: seq<Option<Cache>>)
    ensures |r| == n && forall i :: 0 <= i < n ==> r[i] == None
  {
    seq(n, _ => None)
  }

  /** The pass through layers `start` up to, but not including, `end`, without caches. */
  function LayerPass(blocks: map<nat, Block>, start: nat, end: nat, p: Piece): (r: Piece)
    requires AllValid(blocks) && PieceFits(p, |p.xs|)
    requires start <= end && forall l: nat :: start <= l < end ==> l in blocks
    ensures PieceFits(r, |p.xs|) && |r.xs| == |p.xs| && r.positions == p.positions && r.len == p.len
  {
    StackPass(Layers(blocks, start, end), p, NoPasts(end - start))
  }

  lemma {:induction false} StackGrows(blocks: seq<Block>, p: Piece, pasts: seq<Option<Cache>>, b: Block, past: Option<Cache>)
    requires PieceFits(p, |p.xs|) && StackFits(blocks, |p.xs|, pasts)
    requires b.Valid() && (past.Some? ==> CacheFits(b, |p.xs|, past.value))
    requires StackFits(blocks + [b], |p.xs|, pasts + [past])
    ensures StackPass(blocks + [b], p, pasts + [past]) == Through(b, StackPass(blocks, p, pasts), past)
  {
    hide Through;
    if blocks == [] {
      assert blocks + [b] == [b] && pasts + [past] == [past];
      assert [b][1..] == [] && [past][1..] == [];
    } else {
      var p' := Through(blocks[0], p, pasts[0]);
      assert (blocks + [b])[1..] == blocks[1..] + [b] && (pasts + [past])[1..] == pasts[1..] + [past];
      StackGrows(blocks[1..], p', pasts[1..], b, past);
    }
  }

  lemma NoLayers(blocks: map<nat, Block>, start: nat, p: Piece)
    requires AllValid(blocks) && PieceFits(p, |p.xs|)
    ensures LayerPass(blocks, start, start, p) == p
  {
  }

  lemma LayerPassStep(blocks: map<nat, Block>, start: nat, l: nat, p: Piece)
    requires AllValid(blocks) && PieceFits(p, |p.xs|) && start <= l && forall k: nat :: start <= k <= l ==> k in blocks
    ensures LayerPass(blocks, start, l + 1, p) == Through(blocks[l], LayerPass(blocks, start, l, p), None)
  {
    hide StackPass, Through;
    assert Layers(blocks, start, l + 1) == Layers(blocks, start, l) + [blocks[l]];
    assert NoPasts(l + 1 - start) == NoPasts(l - start) + [None];
    StackGrows(Layers(blocks, start, l), p, NoPasts(l - start), blocks[l], None);
  }

  class ComputeEngine {
    var blocks: map<nat, Block>

    ghost predicate Valid() reads this { AllValid(blocks) }

    constructor ()
      ensures Valid() && blocks == map[]
    {
      blocks := map[];
    }

    /** Stops at the first layer that cannot be read; the layers before it stay loaded. */
    method LoadBlocks(weights: nat -> Option<Block>, start: nat, end: nat) returns (ok: bool)
      requires Valid() && forall l: nat :: weights(l).Some? ==> weights(l).value.Valid()
      modifies this
      ensures Valid()
      ensures ok <==> forall l: nat :: start <= l <= end ==> weights(l).Some?
      ensures ok ==> Loaded(blocks, start, end)
      ensures forall l: nat :: !(start <= l <= end) ==>
                (l in blocks <==> l in old(blocks)) && (l in blocks ==> blocks[l] == old(blocks[l]))
      ensures forall l: nat :: start <= l <= end && (forall k: nat :: start <= k <= l ==> weights(k).Some?) ==>
                l in blocks && weights(l) == Some(blocks[l])
    {
      var l := start;
      while l <= end
        invariant start <= l <= Stop(start, end) && Valid()
        invariant forall k: nat :: start <= k < l ==> k in blocks && weights(k) == Some(blocks[k])
        invariant forall k: nat :: !(start <= k < l) ==>
                    (k in blocks <==> k in old(blocks)) && (k in blocks ==> blocks[k] == old(blocks[k]))
      {
        var w := weights(l);
        if w.None? {
          return false;
        }
        blocks := blocks[l := w.value];
        l := l + 1;
      }
      ok := true;
    }

    /** `forward`: one layer over a whole sequence, or nothing when the layer is not loaded. */
    method Forward(layer: nat, xs: seq<seq<Vec>>, len: nat) returns (out: Option<seq<seq<Vec>>>)
      requires Valid() && Batch(xs, |xs|, len)
      ensures out.Some? <==> layer in blocks
      ensures out.Some? ==> out.value == Through(blocks[layer], Sequence(xs, len), None).xs
    {
      if layer !in blocks {
        return None;
      }
      var p := Sequence(xs, len);
      out := Some(ForwardInner(blocks[layer], p.xs, p.positions, p.len, None));
    }

    /** The loop over the layers. */
    method RunLayers(start: nat, end: nat, xs: seq<seq<Vec>>, len: nat) returns (out: Option<seq<seq<Vec>>>)
      requires Valid() && Batch(xs, |xs|, len)
      ensures out.Some? <==> Loaded(blocks, start, end)
      ensures out.Some? ==> out.value == LayerPass(blocks, start, Stop(start, end), Sequence(xs, len)).xs
    {
      hide LayerPass, Through;
      ghost var whole := Sequence(xs, len);
      NoLayers(blocks, start, whole);
      var current := xs;
      var l := start;
      while l <= end
        invariant start <= l <= Stop(start, end)
        invariant forall k: nat :: start <= k < l ==> k in blocks
        invariant current == LayerPass(blocks, start, l, whole).xs
      {
        assert Sequence(current, len) == LayerPass(blocks, start, l, whole);
        var next := Forward(l, current, len);
        if next.None? {
          return None;
        }
        LayerPassStep(blocks, start, l, whole);
        current := next.value;
        l := l + 1;
      }
      out := Some(current);
    }

    /** `batched_process_terminal_pass` for one entry: the rows of each batch element, flat. */
    method TerminalPass(start: nat, end: nat, xs: seq<seq<Vec>>, len: nat) returns (out: Option<seq<Vec>>)
      requires Valid() && Batch(xs, |xs|, len)
      ensures out.Some? <==> Loaded(blocks, start, end)
      ensures out.Some? ==> |out.value| == |xs|
      ensures out.Some? ==> forall i :: 0 <= i < |xs| ==>
                out.value[i] == Flatten(LayerPass(blocks, start, Stop(start, end), Sequence(xs, len)).xs[i])
    {
      hide LayerPass;
      var current := RunLayers(start, end, xs, len);
      if current.None? {
        return None;
      }
      var rows := current.value;
      var outputs := [];
      for i := 0 to |rows|
        invariant |outputs| == i && forall j :: 0 <= j < i ==> outputs[j] == Flatten(rows[j])
      {
        outputs := outputs + [Flatten(rows[i])];
      }
      out := Some(outputs);
    }

    /** `process_terminal_pass`: of a batch, only the first element's rows are returned. */
    method ProcessTerminalPass(start: nat, end: nat, xs: seq<seq<Vec>>, len: nat) returns (out: Option<Vec>)
      requires Valid() && Batch(xs, |xs|, len)
      ensures out.Some? <==> Loaded(blocks, start, end)
      ensures out.Some? && xs != [] ==>
                out.value == Flatten(LayerPass(blocks, start, Stop(start, end), Sequence(xs, len)).xs[0])
      ensures out.Some? && xs == [] ==> out.value == []
    {
      var outputs := TerminalPass(start, end, xs, len);
      match outputs
      case None => out := None;
      case Some(rows) => out := Some(if rows == [] then [] else rows[0]);
    }
  }

  /** What the engine computes over a whole sequence, incremental decoding computes chunk by
      chunk, and it leaves the same keys and values in every layer. */
  lemma EngineEqualsIncremental(blocks: map<nat, Block>, start: nat, end: nat, xs: seq<seq<Vec>>, len: nat, pieces: seq<Piece>)
    requires AllValid(blocks) && Loaded(blocks, start, end) && start <= end && Batch(xs, |xs|, len)
    requires pieces != [] && AllFit(pieces, |xs|) && Whole(pieces, |xs|) == Sequence(xs, len)
    ensures var stack := Layers(blocks, start, end + 1);
            && Whole(Outputs(stack, pieces, |xs|, NoPasts(|stack|)), |xs|) ==
                 LayerPass(blocks, start, end + 1, Sequence(xs, len))
            && FinalCaches(stack, pieces, |xs|, NoPasts(|stack|)) ==
                 StackCaches(stack, Sequence(xs, len), NoPasts(|stack|))
  {
    hide StackPass, StackCaches, Outputs, FinalCaches, Whole;
    var stack := Layers(blocks, start, end + 1);
    IncrementalIsFull(stack, pieces, |xs|, NoPasts(|stack|));
  }
}
