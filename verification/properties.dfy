/**
 * What a successful build guarantees: the recorded encoder outputs and
 * sizes, the decoder mirroring the encoder, the gating rule, and the
 * agreement of every kernel with the tensors it is applied to.
 */
module BuildProperties {
  import opened Python
  import opened Shapes
  import opened StackAutoencoder

  /** `encoded` and `size_each_hidden` after a build: one entry per depth, the input first. */
  lemma EncodedOutputs(m: Model, filterSizes: seq<KernelSize>, pool: Size -> Size)
    requires Valid(m) && FilterSizesAccepted(|filterSizes|, m.layerNum)
    ensures var b := Build(m, filterSizes, pool).value;
            && |b.encoded| == m.layerNum + 1
            && |b.sizes| == m.layerNum + 1
            && b.encoded[0] == m.input
            && b.sizes[0] == m.input.shape.dims.size
            && (forall k :: 1 <= k <= m.layerNum ==>
                  b.encoded[k] == Tensor(Encoded(k), Image(Dims(b.sizes[k], m.channels[k]))))
            && (forall k :: 1 <= k <= m.layerNum ==> b.sizes[k] == pool(b.sizes[k - 1]))
  {
    var b := Build(m, filterSizes, pool).value;
    forall k | 1 <= k <= m.layerNum
      ensures b.sizes[k] == pool(b.sizes[k - 1])
    {
      assert b.sizes[k] == LevelSize(m, pool, k);
      assert b.sizes[k - 1] == LevelSize(m, pool, k - 1);
    }
  }

  /**
   * The decoder mirrors the encoder, whatever the pooling does to sizes:
   * decoder stage `k` restores the shape of depth `k`, so the last stage
   * (stage 0) gives back the input's size and channel count.
   */
  lemma DecoderMirror(m: Model, filterSizes: seq<KernelSize>, pool: Size -> Size)
    requires Valid(m) && FilterSizesAccepted(|filterSizes|, m.layerNum)
    ensures var b := Build(m, filterSizes, pool).value;
            && b.decoded.shape == m.input.shape
            && (forall k :: 0 <= k < m.layerNum ==> b.decoder[k].output.shape == b.encoded[k].shape)
            && (m.layerNum >= 1 ==>
                  && b.decoded == b.decoder[0].output
                  && b.decoder[0].output.shape == Image(Dims(b.sizes[0], m.channels[0])))
  {
  }

  /**
   * Gating: encoder stage `i` is gated exactly when `i != 0` and reads zeros
   * shaped like its input while locked (`i >= ph`). On the decoder side the
   * gate after stage `i + 1` decides what stage `i` reads: the output of
   * stage `i + 1` while that stage exists and is unlocked, otherwise the
   * encoding at depth `i + 1`, so a locked decoder stage is skipped.
   */
  lemma StageGating(m: Model, filterSizes: seq<KernelSize>, pool: Size -> Size, ph: uint8)
    requires Valid(m) && FilterSizesAccepted(|filterSizes|, m.layerNum)
    ensures var b := Build(m, filterSizes, pool).value;
            && (forall i :: 0 <= i < m.layerNum ==> (b.encoder[i].input.Gated? <==> i != 0))
            && (forall i :: 0 <= i < m.layerNum ==> (b.decoder[i].input.Gated? <==> i + 1 < m.layerNum))
            && (forall i :: 0 <= i < m.layerNum ==>
                  Select(b.encoder[i].input, ph) == if i == 0 || i < ph as int then b.encoded[i] else ZerosLike(b.encoded[i]))
            && (forall i :: 0 <= i < m.layerNum ==>
                  Select(b.decoder[i].input, ph) ==
                    if i + 1 < m.layerNum && i + 1 < ph as int then b.decoder[i + 1].output else b.encoded[i + 1])
  {
    var b := Build(m, filterSizes, pool).value;
    forall i | 0 <= i < m.layerNum
      ensures Select(b.decoder[i].input, ph) ==
                if i + 1 < m.layerNum && i + 1 < ph as int then b.decoder[i + 1].output else b.encoded[i + 1]
    {
      if i + 1 < m.layerNum {
        assert b.decoder[i + 1].output == Above(m, pool, i + 1);
      }
    }
  }

  /**
   * Greedy layer-wise training: with `k` layers unlocked, the reconstruction
   * runs the input through encoder stages `0 .. k - 1`, each reading the
   * real output of the stage before, and back through decoder stages
   * `k - 1 .. 0`, the first of which starts from the encoding at depth `k`.
   * No locked stage and no zero bypass lies on that path.
   */
  lemma GreedyPath(m: Model, filterSizes: seq<KernelSize>, pool: Size -> Size, k: uint8)
    requires Valid(m) && FilterSizesAccepted(|filterSizes|, m.layerNum)
    requires 1 <= k as int <= m.layerNum
    ensures var b := Build(m, filterSizes, pool).value;
            && (forall i :: 0 <= i < k as int ==> Select(b.encoder[i].input, k) == b.encoded[i])
            && (forall i :: 0 <= i < k as int ==> b.encoder[i].output == b.encoded[i + 1])
            && b.encoded[0] == m.input
            && Select(b.decoder[k as int - 1].input, k) == b.encoded[k]
            && (forall i :: 0 <= i < k as int - 1 ==> Select(b.decoder[i].input, k) == b.decoder[i + 1].output)
            && b.decoded == b.decoder[0].output
  {
    var b := Build(m, filterSizes, pool).value;
    StageGating(m, filterSizes, pool, k);
    forall i | 0 <= i < k as int
      ensures b.encoder[i].output == b.encoded[i + 1]
    {
      assert b.encoded[i + 1] == EncodedAt(m, pool, i + 1);
    }
  }

  /**
   * Every kernel fits the tensors around it: its input channels are those
   * of the stage's true input, its output channels those
   * of the depth it produces, and encoder and decoder stage `i` share one
   * kernel extent with transposed channel counts.
   */
  lemma KernelsFit(m: Model, filterSizes: seq<KernelSize>, pool: Size -> Size)
    requires Valid(m) && FilterSizesAccepted(|filterSizes|, m.layerNum)
    ensures var b := Build(m, filterSizes, pool).value;
            forall i :: 0 <= i < m.layerNum ==>
              var size := if |filterSizes| == 1 then filterSizes[0] else filterSizes[i];
              && b.encoder[i].filter == Kernel(size, m.channels[i], m.channels[i + 1])
              && b.decoder[i].filter == Kernel(size, m.channels[i + 1], m.channels[i])
              && OpenInput(b.encoder[i].input).shape == Image(Dims(b.sizes[i], b.encoder[i].filter.inChannels))
              && OpenInput(b.decoder[i].input).shape == Image(Dims(b.sizes[i + 1], b.decoder[i].filter.inChannels))
              && b.encoder[i].output.shape.dims.channels == b.encoder[i].filter.outChannels
              && b.decoder[i].output.shape.dims.channels == b.decoder[i].filter.outChannels
  {
    var b := Build(m, filterSizes, pool).value;
    forall i | 0 <= i < m.layerNum
      ensures OpenInput(b.decoder[i].input).shape == Image(Dims(b.sizes[i + 1], b.decoder[i].filter.inChannels))
    {
      assert b.sizes[i + 1] == LevelSize(m, pool, i + 1);
    }
  }

  /**
   * Both branches of every gate have the same shape, so `tf.cond` has one
   * static shape. A decoder gate stands in for the output of the stage it
   * skips, `layers[i + 1]`, which has exactly that output's shape.
   */
  lemma BypassShapesAgree(m: Model, filterSizes: seq<KernelSize>, pool: Size -> Size)
    requires Valid(m) && FilterSizesAccepted(|filterSizes|, m.layerNum)
    ensures var b := Build(m, filterSizes, pool).value;
            && (forall i :: 0 <= i < m.layerNum && b.encoder[i].input.Gated? ==>
                  b.encoder[i].input.bypass.shape == b.encoder[i].input.open.shape)
            && (forall i :: 0 <= i < m.layerNum && b.decoder[i].input.Gated? ==>
                  && b.decoder[i].input.bypass.shape == b.decoder[i].input.open.shape
                  && b.decoder[i].input.open == b.decoder[i + 1].output
                  && b.decoder[i].input.bypass == b.encoded[i + 1]
                  && b.encoded[i + 1].shape == b.decoder[i + 1].output.shape)
  {
  }

  lemma StageNamesDistinct(i: nat, j: nat)
    requires StageName(i) == StageName(j)
    ensures i == j
  {
    var prefix := "hidden_";
    assert Decimal(i + 1) == StageName(i)[|prefix|..];
    assert Decimal(j + 1) == StageName(j)[|prefix|..];
    DecimalInjective(i + 1, j + 1);
  }

  lemma StageScopesDistinct(role: string, i: nat, j: nat)
    requires StageScope(role, i) == StageScope(role, j)
    ensures i == j
  {
    var prefix := Scoped(ScopeName, role) + "/";
    assert StageName(i) == StageScope(role, i)[|prefix|..];
    assert StageName(j) == StageScope(role, j)[|prefix|..];
    StageNamesDistinct(i, j);
  }

  /**
   * Encoder and decoder stage `i` open the scopes `encoder/hidden_<i+1>` and
   * `decoder/hidden_<i+1>`, and no two stages on one side share a scope.
   */
  lemma StageScopesPairwiseDistinct(role: string, n: nat)
    ensures forall i, j :: 0 <= i < j < n ==> StageScope(role, i) != StageScope(role, j)
  {
    forall i, j | 0 <= i < j < n
      ensures StageScope(role, i) != StageScope(role, j)
    {
      if StageScope(role, i) == StageScope(role, j) {
        StageScopesDistinct(role, i, j);
      }
    }
  }

  lemma StageScopes(m: Model, filterSizes: seq<KernelSize>, pool: Size -> Size)
    requires Valid(m) && FilterSizesAccepted(|filterSizes|, m.layerNum)
    ensures var b := Build(m, filterSizes, pool).value;
            && (forall i :: 0 <= i < m.layerNum ==> b.encoder[i].scope == StageScope("encoder", i))
            && (forall i :: 0 <= i < m.layerNum ==> b.decoder[i].scope == StageScope("decoder", i))
            && (forall i, j :: 0 <= i < j < m.layerNum ==> b.encoder[i].scope != b.encoder[j].scope)
            && (forall i, j :: 0 <= i < j < m.layerNum ==> b.decoder[i].scope != b.decoder[j].scope)
  {
    StageScopesPairwiseDistinct("encoder", m.layerNum);
    StageScopesPairwiseDistinct("decoder", m.layerNum);
  }

  /** `get_encoded`: 0 gives the input, no argument gives the deepest encoding, too large an index raises. */
  lemma GetEncodedDepths(m: Model, filterSizes: seq<KernelSize>, pool: Size -> Size, index: int)
    requires Valid(m) && FilterSizesAccepted(|filterSizes|, m.layerNum)
    ensures var b := Build(m, filterSizes, pool).value;
            && HasAllDepths(b)
            && GetEncoded(b, Some(0)) == Ok(m.input)
            && GetEncoded(b, None) == GetEncoded(b, Some(m.layerNum))
            && (index > m.layerNum ==> GetEncoded(b, Some(index)) == Err(ValueError(IndexTooLarge)))
  {
  }

  /**
   * Two layers of 16 and 32 feature maps over a 64x64 RGB input with the
   * default pooling: the deepest encoding is 16x16x32 and the
   * reconstruction is 64x64x3 again.
   */
  lemma TwoLayerExample()
    ensures var r := New(InputShape(Unknown, Known(64), Known(64), Known(3)), 2, [16, 32]);
            && r.Ok?
            && var b := Build(r.value, [KernelSize(3, 3)], HalveSame);
               && b.Ok?
               && |b.value.encoded| == 3
               && b.value.encoded[0] == r.value.input
               && b.value.encoded[2].shape == Image(Dims(Size(16, 16), 32))
               && b.value.decoded.shape == Image(Dims(Size(64, 64), 3))
  {
    var m := New(InputShape(Unknown, Known(64), Known(64), Known(3)), 2, [16, 32]).value;
    var b := Build(m, [KernelSize(3, 3)], HalveSame).value;
    assert LevelSize(m, HalveSame, 1) == Size(32, 32);
    assert LevelSize(m, HalveSame, 2) == Size(16, 16);
    EncodedOutputs(m, [KernelSize(3, 3)], HalveSame);
    DecoderMirror(m, [KernelSize(3, 3)], HalveSame);
  }
}
