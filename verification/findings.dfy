/**
 * Places where the source, read literally, does not do what its messages,
 * documentation or surrounding code say. Each lemma sets the literal
 * behaviour beside the corrected one the builder uses.
 */
module Findings {
  import opened Python
  import opened Shapes
  import opened StackAutoencoder
  import LayerCodec
  import BuildProperties

  /**
   * The `filter_sizes` check as written rejects one size for two layers and
   * one size per layer for three, both of which its message admits; it
   * accepts nothing the corrected check rejects.
   */
  lemma FilterSizesCheckTooStrict()
    ensures !FilterSizesAcceptedAsWritten(1, 2) && FilterSizesAccepted(1, 2)
    ensures !FilterSizesAcceptedAsWritten(3, 3) && FilterSizesAccepted(3, 3)
    ensures forall count: nat, layerNum: nat ::
              FilterSizesAcceptedAsWritten(count, layerNum) ==> FilterSizesAccepted(count, layerNum)
  {
  }

  /**
   * The scalar zero the source uses as the encoder bypass never has the
   * shape of the image it replaces; the corrected bypass always does.
   */
  lemma EncodeBypassShapeMismatch(m: Model, filterSizes: seq<KernelSize>, pool: Size -> Size, i: nat)
    requires Valid(m) && FilterSizesAccepted(|filterSizes|, m.layerNum)
    requires 1 <= i < m.layerNum
    ensures var g := Build(m, filterSizes, pool).value.encoder[i].input;
            && g.Gated?
            && EncodeBypassAsWritten(g.open).shape != g.open.shape
            && g.bypass == EncodeBypass(g.open)
            && g.bypass.shape == g.open.shape
  {
  }

  /** What the decode loop has appended to `layers` before stage `i` runs: the outputs of stages `L - 1` down to `i + 1`. */
  function DecoderOutputsBefore(b: Built, i: nat): seq<Tensor>
    requires |b.decoder| == b.model.layerNum && i < b.model.layerNum
  {
    seq(b.model.layerNum - 1 - i, k requires 0 <= k < b.model.layerNum - 1 - i => b.decoder[b.model.layerNum - 1 - k].output)
  }

  /**
   * The source gates decoder stage `i`'s input with `layers[i]`, the
   * encoding at depth `i`. That tensor has the shape of the stage's true
   * input only when encoder stage `i` changed neither the spatial size nor
   * the channel count, but it always has the shape of the stage's output:
   * it belongs after the stage. The corrected graph puts exactly that
   * tensor there, as the bypass of the gate stage `i - 1` reads through.
   */
  lemma DecodeBypassShapeMismatch(m: Model, filterSizes: seq<KernelSize>, pool: Size -> Size, i: nat)
    requires Valid(m) && FilterSizesAccepted(|filterSizes|, m.layerNum)
    requires 1 <= i < m.layerNum
    ensures var b := Build(m, filterSizes, pool).value;
            var t := DecodeBypassAsWritten(b.encoded, DecoderOutputsBefore(b, i), i);
            && (t.shape == OpenInput(b.decoder[i].input).shape
                <==> b.sizes[i] == b.sizes[i + 1] && m.channels[i] == m.channels[i + 1])
            && t.shape == b.decoder[i].output.shape
            && b.decoder[i - 1].input == Gated(i, b.decoder[i].output, t)
  {
    var b := Build(m, filterSizes, pool).value;
    assert b.sizes[i] == LevelSize(m, pool, i);
    assert b.sizes[i + 1] == LevelSize(m, pool, i + 1);
  }

  /**
   * In the two-layer 64x64x3 model with 16 and 32 feature maps, the source
   * gates decoder stage 1 between a 16x16x32 input and a 32x32x16 bypass.
   * When the bypass is selected (`ph <= 1`) the stage's convolution, whose
   * kernel expects 32 input channels, fails at run time; the stage's codec
   * applied to the bypass's own shape reports the mismatch.
   */
  lemma DecodeBypassCounterexample()
    ensures var m := New(InputShape(Unknown, Known(64), Known(64), Known(3)), 2, [16, 32]).value;
            var b := Build(m, [KernelSize(3, 3)], HalveSame).value;
            && OpenInput(b.decoder[1].input).shape == Image(Dims(Size(16, 16), 32))
            && DecodeBypassAsWritten(b.encoded, DecoderOutputsBefore(b, 1), 1).shape == Image(Dims(Size(32, 32), 16))
            && LayerCodec.Codec(DecodeBypassAsWritten(b.encoded, DecoderOutputsBefore(b, 1), 1).shape.dims, b.decoder[1].filter,
                                Bool(false), Some(StageName(1)), Some(b.sizes[1]), HalveSame)
               == Err(ValueError(ChannelMismatch))
  {
    var m := New(InputShape(Unknown, Known(64), Known(64), Known(3)), 2, [16, 32]).value;
    assert LevelSize(m, HalveSame, 1) == Size(32, 32);
    assert LevelSize(m, HalveSame, 2) == Size(16, 16);
  }

  /**
   * `get_encoded()` as written raises instead of returning the deepest
   * encoding; for every explicit index it agrees with the corrected accessor.
   */
  lemma GetEncodedDefaultUnreachable(b: Built, index: int)
    requires HasAllDepths(b)
    ensures GetEncodedAsWritten(b, None) == Err(TypeError)
    ensures GetEncoded(b, None) == Ok(b.encoded[b.model.layerNum])
    ensures GetEncodedAsWritten(b, Some(index)) == GetEncoded(b, Some(index))
  {
  }
}
