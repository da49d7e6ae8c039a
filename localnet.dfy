/** LocalNet (deepreg/model/backbone/local_net.py): an encoder that goes down
    from level 0 to level E, a decoder that comes back up from level E to
    level D, and one projection per extraction level, averaged.

    `Build` is the constructor's bookkeeping (levels, channel widths, block
    lists); `Call` is the forward pass, whose loops fill the `encoded` and
    `decoded` lists and are proved against the level-indexed definitions
    `PooledAt`, `SkipAt`, `DecodedAt` and `Output`. */
module LocalNet {
  import opened Graph

  function Pow2(n: nat): nat
  {
    if n == 0 then 1 else 2 * Pow2(n - 1)
  }

  /** Python's `max` on a non-empty list. */
  function MaxOf(xs: seq<int>): (m: int)
    requires |xs| > 0
    ensures m in xs
    ensures forall i :: 0 <= i < |xs| ==> xs[i] <= m
  {
    if |xs| == 1 then xs[0]
    else
      var rest := MaxOf(xs[1..]);
      assert rest in xs;
      if xs[0] >= rest then xs[0] else rest
  }

  /** Python's `min` on a non-empty list. */
  function MinOf(xs: seq<int>): (m: int)
    requires |xs| > 0
    ensures m in xs
    ensures forall i :: 0 <= i < |xs| ==> m <= xs[i]
  {
    if |xs| == 1 then xs[0]
    else
      var rest := MinOf(xs[1..]);
      assert rest in xs;
      if xs[0] <= rest then xs[0] else rest
  }

  /** The channel list `nc` for levels 0 to `top`: it starts at the initial
      width and doubles from each level to the next. */
  function Channels(numChannelInitial: int, top: nat): (nc: seq<int>)
    ensures |nc| == top + 1
    ensures nc[0] == numChannelInitial
    ensures forall l :: 0 <= l < top ==> nc[l + 1] == 2 * nc[l]
  {
    seq(top + 1, l requires 0 <= l => numChannelInitial * Pow2(l))
  }

  /** A list that starts at `c` and doubles from each entry to the next holds
      `c * 2^l` at every index l; with the contract of `Channels`, this is the
      closed form of `nc`. */
  lemma {:induction false} ChannelsAt(nc: seq<int>, c: int, l: nat)
    requires l < |nc| && nc[0] == c
    requires forall k :: 0 <= k < |nc| - 1 ==> nc[k + 1] == 2 * nc[k]
    ensures nc[l] == c * Pow2(l)
  {
    if l > 0 {
      ChannelsAt(nc, c, l - 1);
      assert nc[l] == 2 * nc[l - 1];
    }
  }

  /** Going up `j - i` levels multiplies the width by `2^(j - i)`. */
  lemma {:induction false} ChannelRatio(numChannelInitial: int, top: nat, i: nat, j: nat)
    requires i <= j <= top
    ensures Channels(numChannelInitial, top)[j] == Channels(numChannelInitial, top)[i] * Pow2(j - i)
  {
    var nc := Channels(numChannelInitial, top);
    if j > i {
      ChannelRatio(numChannelInitial, top, i, j - 1);
      assert nc[j] == 2 * nc[j - 1];
      assert Pow2(j - i) == 2 * Pow2(j - 1 - i);
    }
  }

  /** The fields a LocalNet instance stores after `__init__`. */
  datatype Net = Net(
    extractLevels: seq<int>,
    maxLevel: nat,                   // E
    minLevel: nat,                   // D
    downBlocks: seq<DownBlock>,      // levels 0 to E-1
    bottleneck: ConvBlock,           // level E
    upBlocks: seq<UpBlock>,          // block idx serves level E-1-idx
    extractLayers: seq<ExtractLayer> // one per entry of extractLevels
  )

  /** The shape facts a constructed LocalNet satisfies and the forward pass relies on. */
  predicate Valid(net: Net) {
    && |net.extractLevels| > 0
    && net.maxLevel in net.extractLevels
    && net.minLevel in net.extractLevels
    && (forall i :: 0 <= i < |net.extractLevels| ==> net.minLevel <= net.extractLevels[i] <= net.maxLevel)
    && |net.downBlocks| == net.maxLevel
    && |net.upBlocks| == net.maxLevel - net.minLevel
    && |net.extractLayers| == |net.extractLevels|
  }

  /** `LocalNet.__init__`. `max` and `min` of an empty list raise ValueError. */
  function Build(imageSize: seq<int>, outChannels: int, numChannelInitial: int, extractLevels: seq<int>,
                 outKernelInitializer: Value, outActivation: Value): (r: Result<Net>)
    requires forall i :: 0 <= i < |extractLevels| ==> extractLevels[i] >= 0
    ensures r.Err? <==> |extractLevels| == 0
    ensures r.Err? ==> r.error == ValueError("max() arg is an empty sequence")
    ensures r.Ok? ==> Valid(r.value) && r.value.extractLevels == extractLevels
    ensures r.Ok? ==> BlocksFollowChannels(r.value, Channels(numChannelInitial, r.value.maxLevel))
    ensures r.Ok? ==> forall idx :: 0 <= idx < |r.value.extractLayers| ==>
              r.value.extractLayers[idx] == ExtractLayer(imageSize, outChannels, outKernelInitializer, outActivation)
  {
    if |extractLevels| == 0 then Err(ValueError("max() arg is an empty sequence"))
    else Ok(Construct(numChannelInitial, extractLevels,
                      ExtractLayer(imageSize, outChannels, outKernelInitializer, outActivation)))
  }

  /** The net `__init__` builds from a non-empty list of levels, with `layer`
      as every extract layer. */
  function Construct(numChannelInitial: int, extractLevels: seq<int>, layer: ExtractLayer): (net: Net)
    requires |extractLevels| > 0
    requires forall i :: 0 <= i < |extractLevels| ==> extractLevels[i] >= 0
    ensures Valid(net) && net.extractLevels == extractLevels
    ensures BlocksFollowChannels(net, Channels(numChannelInitial, net.maxLevel))
    ensures forall idx :: 0 <= idx < |net.extractLayers| ==> net.extractLayers[idx] == layer
  {
    var e: nat := MaxOf(extractLevels);
    var d: nat := MinOf(extractLevels);
    var nc := Channels(numChannelInitial, e);
    var down := DownBlocks(nc, e);
    var up := UpBlocks(nc, e, d);
    var layers := seq(|extractLevels|, _ => layer);
    assert forall i :: 0 <= i < |extractLevels| ==> d <= extractLevels[i] <= e;
    var net := Net(extractLevels, e, d, down, ConvBlock(nc[e]), up, layers);
    BlockListsFollowChannels(net, nc);
    net
  }

  /** The block widths follow the channel list `nc` of the net's levels: down
      block i has `nc[i]` filters and kernel 7 for i = 0, 3 otherwise; the
      bottleneck has `nc[E]`; up block idx has `nc[E-1-idx]`. */
  predicate BlocksFollowChannels(net: Net, nc: seq<int>)
    requires Valid(net) && |nc| == net.maxLevel + 1
  {
    && (forall i :: 0 <= i < net.maxLevel ==>
          net.downBlocks[i].filters == nc[i] && net.downBlocks[i].kernelSize == (if i == 0 then 7 else 3))
    && net.bottleneck.filters == nc[net.maxLevel]
    && (forall idx :: 0 <= idx < net.maxLevel - net.minLevel ==>
          net.upBlocks[idx].filters == nc[net.maxLevel - 1 - idx])
  }

  /** Blocks made by `DownBlocks`, `ConvBlock` and `UpBlocks` from `nc` follow `nc`. */
  lemma BlockListsFollowChannels(net: Net, nc: seq<int>)
    requires Valid(net) && |nc| == net.maxLevel + 1
    requires net.downBlocks == DownBlocks(nc, net.maxLevel)
    requires net.bottleneck == ConvBlock(nc[net.maxLevel])
    requires net.upBlocks == UpBlocks(nc, net.maxLevel, net.minLevel)
    ensures BlocksFollowChannels(net, nc)
  {
  }

  /** The down-sample blocks of levels 0 to e-1: the first has a 7-wide kernel. */
  function DownBlocks(nc: seq<int>, e: nat): (blocks: seq<DownBlock>)
    requires |nc| == e + 1
    ensures |blocks| == e
    ensures forall i :: 0 <= i < e ==>
              blocks[i].filters == nc[i] && blocks[i].kernelSize == (if i == 0 then 7 else 3)
  {
    seq(e, i requires 0 <= i < e => DownBlock(nc[i], if i == 0 then 7 else 3))
  }

  /** The up-sample blocks for levels e-1 down to d, in that order. */
  function UpBlocks(nc: seq<int>, e: nat, d: nat): (blocks: seq<UpBlock>)
    requires |nc| == e + 1 && d <= e
    ensures |blocks| == e - d
    ensures forall idx :: 0 <= idx < e - d ==> blocks[idx].filters == nc[e - 1 - idx]
  {
    seq(e - d, idx requires 0 <= idx < e - d => UpBlock(nc[e - 1 - idx]))
  }

  // ---------------------------------------------------------------------------
  // The forward pass, level by level

  /** `h` after the down-sample blocks of levels 0 to l-1. */
  function PooledAt(net: Net, inputs: Tensor, l: nat): Tensor
    requires l <= |net.downBlocks|
  {
    if l == 0 then inputs
    else DownPooled(l - 1, net.downBlocks[l - 1], PooledAt(net, inputs, l - 1))
  }

  /** The skip output of the down-sample block of level l. */
  function SkipAt(net: Net, inputs: Tensor, l: nat): Tensor
    requires l < |net.downBlocks|
  {
    DownSkip(l, net.downBlocks[l], PooledAt(net, inputs, l))
  }

  /** The bottleneck output, level E. */
  function BottleneckOut(net: Net, inputs: Tensor): Tensor
    requires Valid(net)
  {
    Conv(net.bottleneck, PooledAt(net, inputs, net.maxLevel))
  }

  /** The decoded tensor of level l, for D <= l <= E: the bottleneck at level E,
      and below it the up-sample of the level above fused with the skip of level l. */
  function DecodedAt(net: Net, inputs: Tensor, l: nat): Tensor
    requires Valid(net) && net.minLevel <= l <= net.maxLevel
    decreases net.maxLevel - l
  {
    if l == net.maxLevel then BottleneckOut(net, inputs)
    else
      var idx := net.maxLevel - 1 - l;
      UpSample(idx, net.upBlocks[idx], DecodedAt(net, inputs, l + 1), SkipAt(net, inputs, l))
  }

  /** Extract layer number idx applied to the decoded tensor of its level. */
  function Projection(net: Net, inputs: Tensor, idx: nat): Tensor
    requires Valid(net) && idx < |net.extractLevels|
  {
    Project(idx, net.extractLayers[idx], DecodedAt(net, inputs, net.extractLevels[idx]))
  }

  /** The network output: the mean of one projection per extraction level. */
  function Output(net: Net, inputs: Tensor): Tensor
    requires Valid(net)
  {
    Mean(seq(|net.extractLevels|, idx requires 0 <= idx < |net.extractLevels| => Projection(net, inputs, idx)))
  }

  /** With a single extraction level there is no up-sampling: the output fuses
      exactly one projection, that of the bottleneck. */
  lemma SingleLevelOutput(net: Net, inputs: Tensor)
    requires Valid(net) && |net.extractLevels| == 1
    ensures net.maxLevel == net.minLevel == net.extractLevels[0]
    ensures net.upBlocks == []
    ensures Output(net, inputs) == Mean([Project(0, net.extractLayers[0], BottleneckOut(net, inputs))])
  {
    assert net.maxLevel == net.extractLevels[0];
    assert net.minLevel == net.extractLevels[0];
    var parts := seq(1, idx requires 0 <= idx < 1 => Projection(net, inputs, idx));
    assert parts == [Project(0, net.extractLayers[0], BottleneckOut(net, inputs))];
  }

  // ---------------------------------------------------------------------------
  // `LocalNet.call`

  /** The encode loop: returns the final `h` and the list `encoded` of skips. */
  method Encode(net: Net, inputs: Tensor) returns (h: Tensor, encoded: seq<Tensor>)
    requires Valid(net)
    ensures |encoded| == net.maxLevel
    ensures forall i :: 0 <= i < net.maxLevel ==> encoded[i] == SkipAt(net, inputs, i)
    ensures h == PooledAt(net, inputs, net.maxLevel)
  {
    encoded := [];
    h := inputs;
    for level := 0 to net.maxLevel
      invariant |encoded| == level
      invariant forall i :: 0 <= i < level ==> encoded[i] == SkipAt(net, inputs, i)
      invariant h == PooledAt(net, inputs, level)
    {
      var block := net.downBlocks[level];
      var hc := DownSkip(level, block, h);
      h := DownPooled(level, block, h);
      encoded := encoded + [hc];
    }
  }

  /** The decoded tensor of level l computed from the loop's own inputs: the
      bottleneck output `hm0` and the list `encoded` of skips. */
  function DecodedFrom(net: Net, hm0: Tensor, encoded: seq<Tensor>, l: nat): Tensor
    requires Valid(net) && |encoded| == net.maxLevel && net.minLevel <= l <= net.maxLevel
    decreases net.maxLevel - l
  {
    if l == net.maxLevel then hm0
    else
      var idx := net.maxLevel - 1 - l;
      UpSample(idx, net.upBlocks[idx], DecodedFrom(net, hm0, encoded, l + 1), encoded[l])
  }

  /** Fed the bottleneck output and the encoder's skips, the decoder computes
      the level-indexed `DecodedAt` at every level from E down to D. */
  lemma {:induction false} DecodedFromEncoder(net: Net, inputs: Tensor, hm0: Tensor, encoded: seq<Tensor>, l: nat)
    requires Valid(net) && net.minLevel <= l <= net.maxLevel
    requires hm0 == BottleneckOut(net, inputs)
    requires |encoded| == net.maxLevel
    requires forall i :: 0 <= i < net.maxLevel ==> encoded[i] == SkipAt(net, inputs, i)
    ensures DecodedFrom(net, hm0, encoded, l) == DecodedAt(net, inputs, l)
    decreases net.maxLevel - l
  {
    if l < net.maxLevel {
      DecodedFromEncoder(net, inputs, hm0, encoded, l + 1);
      assert encoded[l] == SkipAt(net, inputs, l);
    }
  }

  /** The decode loop: `decoded[k]` is the decoded tensor of level E - k. */
  method Decode(net: Net, hm0: Tensor, encoded: seq<Tensor>) returns (decoded: seq<Tensor>)
    requires Valid(net)
    requires |encoded| == net.maxLevel
    ensures |decoded| == net.maxLevel - net.minLevel + 1
    ensures forall k :: 0 <= k < |decoded| ==> decoded[k] == DecodedFrom(net, hm0, encoded, net.maxLevel - k)
  {
    var hm := hm0;
    decoded := [hm];
    for idx := 0 to net.maxLevel - net.minLevel
      invariant |decoded| == idx + 1
      invariant forall k :: 0 <= k <= idx ==> decoded[k] == DecodedFrom(net, hm0, encoded, net.maxLevel - k)
      invariant hm == DecodedFrom(net, hm0, encoded, net.maxLevel - idx)
    {
      hm := UpSample(idx, net.upBlocks[idx], hm, encoded[net.maxLevel - idx - 1]);
      decoded := decoded + [hm];
    }
  }

  /** The extraction: one projection per extraction level, then their mean. */
  method Extract(net: Net, ghost inputs: Tensor, decoded: seq<Tensor>) returns (output: Tensor)
    requires Valid(net)
    requires |decoded| == net.maxLevel - net.minLevel + 1
    requires forall k :: 0 <= k < |decoded| ==> decoded[k] == DecodedAt(net, inputs, net.maxLevel - k)
    ensures output == Output(net, inputs)
  {
    var parts := [];
    for idx := 0 to |net.extractLevels|
      invariant |parts| == idx
      invariant forall j :: 0 <= j < idx ==> parts[j] == Projection(net, inputs, j)
    {
      var level := net.extractLevels[idx];
      parts := parts + [Project(idx, net.extractLayers[idx], decoded[net.maxLevel - level])];
    }
    assert parts == seq(|net.extractLevels|, idx requires 0 <= idx < |net.extractLevels| => Projection(net, inputs, idx));
    output := Mean(parts);
  }

  /** `LocalNet.call`: encode, bottleneck, decode, extract. */
  method Call(net: Net, inputs: Tensor) returns (output: Tensor)
    requires Valid(net)
    ensures output == Output(net, inputs)
  {
    var h, encoded := Encode(net, inputs);
    var hm := Conv(net.bottleneck, h);
    var decoded := Decode(net, hm, encoded);
    forall k | 0 <= k < |decoded|
      ensures decoded[k] == DecodedAt(net, inputs, net.maxLevel - k)
    {
      DecodedFromEncoder(net, inputs, hm, encoded, net.maxLevel - k);
    }
    output := Extract(net, inputs, decoded);
  }
}
