/**
 The head counts and sizes that a model's configuration gives its blocks.
 */
module ModelConfig {
  import opened Common
  import opened Tensors
  import Attention

  datatype Config = Config(hiddenSize: nat, attentionHeads: nat, keyValueHeads: Option<nat>)
  {
    function KvHeads(): nat {
      if keyValueHeads.Some? then keyValueHeads.value else attentionHeads
    }

    function HeadDim(): Option<nat> { Quotient(hiddenSize, attentionHeads) }

    function KvGroups(): Option<nat> { Quotient(attentionHeads, KvHeads()) }
  }

  /** A truncating division, which panics on zero. */
  function Quotient(a: nat, n: nat): Option<nat> {
    if n == 0 then None else Some(a / n)
  }

  /** The block was created with these numbers. */
  ghost predicate Configured(b: Attention.Block, c: Config) {
    && b.nHeads == c.attentionHeads && b.nKvHeads == c.KvHeads()
    && c.KvGroups() == Some(b.nKvGroups) && c.HeadDim() == Some(b.headDim)
  }

  /** A truncating division is exact where it leaves no remainder, and only there. */
  lemma ExactIff(a: nat, n: nat)
    requires n > 0
    ensures Times(n, a / n) == a <==> a % n == 0
  {
    TimesIsProduct(n, a / n);
    assert a == n * (a / n) + a % n;
  }

  /** The repeated key/value heads line up with the query heads exactly when the key/value heads
      divide the heads, and the heads fill a row exactly when they divide the hidden size. */
  lemma ShapesFitIff(b: Attention.Block, c: Config)
    requires Configured(b, c)
    ensures var kvHeads := if c.keyValueHeads.Some? then c.keyValueHeads.value else c.attentionHeads;
            && kvHeads > 0 && b.nKvHeads == kvHeads && b.nKvGroups == c.attentionHeads / kvHeads
            && (b.nHeads == Times(b.nKvHeads, b.nKvGroups) <==> c.attentionHeads % kvHeads == 0)
    ensures c.attentionHeads > 0 && b.nHeads == c.attentionHeads && b.headDim == c.hiddenSize / c.attentionHeads
    ensures Times(b.nHeads, b.headDim) == c.hiddenSize <==> c.hiddenSize % c.attentionHeads == 0
  {
    ExactIff(c.attentionHeads, c.KvHeads());
    ExactIff(c.hiddenSize, c.attentionHeads);
  }

  /** Without a number of key/value heads, every query head has its own. */
  lemma DefaultIsMultiHead(b: Attention.Block, c: Config, h: nat)
    requires Configured(b, c) && c.keyValueHeads.None? && h < b.nHeads
    ensures b.nHeads == Times(b.nKvHeads, b.nKvGroups) && Attention.KvHead(b, h) == h
  {
    TimesOne(b.nHeads);
  }
}
