/**
 * The stacked convolutional autoencoder: construction-time validation, the
 * encoder/decoder graph builder with its per-stage gates, and the accessor
 * for encoder outputs. Every tensor is followed through its static shape
 * and its origin.
 */
module StackAutoencoder {
  import opened Python
  import opened Shapes
  import LayerCodec

  /** The variable scope every stage is built under. */
  const ScopeName: string := "stack_autoencoder"

  /** TensorFlow's join of a scope and a name inside it. */
  function Scoped(outer: string, inner: string): string {
    outer + "/" + inner
  }

  /**
   * A constructed model: the input tensor, the number of layers, and the
   * channel count of every depth, the input's channel count first.
   */
  datatype Model = Model(input: Tensor, layerNum: nat, channels: seq<nat>)

  ghost predicate Valid(m: Model) {
    && m.input.origin == ModelInput
    && m.input.shape.Image?
    && |m.channels| == m.layerNum + 1
    && m.channels[0] == m.input.shape.dims.channels
  }

  predicate KnownImageShape(shape: InputShape) {
    shape.height.Known? && shape.width.Known? && shape.channels.Known?
  }

  /** `stack_autoencoder(in_data, layer_num, hidden_outputs)`. */
  function New(shape: InputShape, layerNum: int, hiddenOutputs: seq<nat>): (r: Result<Model>)
    ensures r.Ok? <==> KnownImageShape(shape) && |hiddenOutputs| == layerNum
    ensures !KnownImageShape(shape) ==> r == Err(ValueError(UnknownShape))
    ensures KnownImageShape(shape) && |hiddenOutputs| != layerNum ==> r == Err(ValueError(HiddenOutputsLength))
    ensures r.Ok? ==> && Valid(r.value)
                      && r.value.layerNum == layerNum
                      && r.value.channels == [shape.channels.n] + hiddenOutputs
                      && r.value.input.shape == Image(Dims(Size(shape.height.n, shape.width.n), shape.channels.n))
  {
    if !KnownImageShape(shape) then Err(ValueError(UnknownShape))
    else if |hiddenOutputs| != layerNum then Err(ValueError(HiddenOutputsLength))
    else
      var input := Tensor(ModelInput, Image(Dims(Size(shape.height.n, shape.width.n), shape.channels.n)));
      Ok(Model(input, |hiddenOutputs|, [shape.channels.n] + hiddenOutputs))
  }

  /** The length check on `filter_sizes` as the source writes it: `len != 1 or len != layer_num` raises. */
  function FilterSizesAcceptedAsWritten(count: nat, layerNum: nat): (ok: bool)
    ensures ok <==> count == 1 && layerNum == 1
  {
    !(count != 1 || count != layerNum)
  }

  /** The check its message and documentation describe: one size for all layers, or one per layer. */
  predicate FilterSizesAccepted(count: nat, layerNum: nat) {
    count == 1 || count == layerNum
  }

  /** One kernel size per layer: a single size is repeated `layerNum` times. */
  function Broadcast(filterSizes: seq<KernelSize>, layerNum: nat): (ks: seq<KernelSize>)
    requires FilterSizesAccepted(|filterSizes|, layerNum)
    ensures |ks| == layerNum
    ensures forall i :: 0 <= i < layerNum ==> ks[i] == (if |filterSizes| == 1 then filterSizes[0] else filterSizes[i])
  {
    if |filterSizes| == 1 then seq(layerNum, _ => filterSizes[0]) else filterSizes
  }

  /** The placeholder's element type: the control value fed at run time. */
  newtype uint8 = x: int | 0 <= x < 256

  /** The input of a stage: fed directly, or chosen at run time between the open input and a bypass. */
  datatype Gate = Direct(input: Tensor) | Gated(stage: nat, open: Tensor, bypass: Tensor)

  /** The input a stage reads when it is not bypassed. */
  function OpenInput(g: Gate): Tensor {
    match g
    case Direct(t) => t
    case Gated(_, open, _) => open
  }

  /** Every stage but stage 0 is gated. */
  function GateFor(i: nat, open: Tensor, bypass: Tensor): (g: Gate)
    ensures g.Gated? <==> i != 0
    ensures OpenInput(g) == open
    ensures g.Gated? ==> g.stage == i && g.bypass == bypass
  {
    if i != 0 then Gated(i, open, bypass) else Direct(open)
  }

  /** `tf.cond(tf.less(i, ph), ...)`: the open input while the stage is unlocked, the bypass otherwise. */
  function Select(g: Gate, ph: uint8): (r: Tensor)
    ensures g.Direct? || g.stage < ph as int ==> r == OpenInput(g)
    ensures g.Gated? && g.stage >= ph as int ==> r == g.bypass
  {
    match g
    case Direct(t) => t
    case Gated(i, open, bypass) => if i < ph as int then open else bypass
  }

  /**
   * Raising the control value never closes a gate: layer-wise training
   * unlocks stages one after another and keeps them unlocked.
   */
  lemma SelectMonotone(g: Gate, ph: uint8, later: uint8)
    requires ph <= later
    requires g.Direct? || g.stage < ph as int
    ensures Select(g, later) == OpenInput(g)
  {
  }

  /** A zero tensor of the same shape. */
  function ZerosLike(t: Tensor): Tensor {
    Tensor(ZeroConstant, t.shape)
  }

  /** The encoder bypass as the source writes it: the scalar zero constant. */
  function EncodeBypassAsWritten(open: Tensor): (z: Tensor)
    ensures z.origin == ZeroConstant && z.shape.Scalar?
    ensures open.shape.Image? ==> z.shape != open.shape
  {
    Tensor(ZeroConstant, Scalar)
  }

  /** The encoder bypass: zeros shaped like the stage's open input. */
  function EncodeBypass(open: Tensor): Tensor {
    ZerosLike(open)
  }

  /**
   * The decoder bypass as the source writes it: `layers[i]`, where `layers`
   * holds the input, the encoder outputs and then the decoder outputs so
   * far; index `i` lands in the encoder part, at depth `i`.
   */
  function DecodeBypassAsWritten(encoded: seq<Tensor>, decodedSoFar: seq<Tensor>, i: nat): (t: Tensor)
    requires i < |encoded|
    ensures t == encoded[i]
  {
    (encoded + decodedSoFar)[i]
  }

  /**
   * The input gate of decoder stage `i`. The gate belongs after stage
   * `i + 1`: while that stage is locked it is skipped, and `layers[i + 1]`,
   * the encoding at depth `i + 1`, takes the place of its output. The
   * innermost stage has no stage before it and reads the deepest encoding
   * directly.
   */
  function DecoderGate(i: nat, layerNum: nat, prev: Tensor, skipped: Tensor): (g: Gate)
    ensures g.Gated? <==> i + 1 < layerNum
    ensures OpenInput(g) == prev
    ensures g.Gated? ==> g.stage == i + 1 && g.bypass == skipped
  {
    if i + 1 < layerNum then Gated(i + 1, prev, skipped) else Direct(prev)
  }

  /** The stage name as the source writes it, `'hidden_%d' % i+1`: `%` binds tighter than `+`. */
  function StageNameAsWritten(i: int): (r: Result<Value>)
    ensures r == Err(TypeError)
  {
    Add(Text("hidden_" + Decimal(i)), Int(1))
  }

  /** The stage name with the layer number formatted: `'hidden_%d' % (i+1)`. */
  function StageName(i: nat): string {
    "hidden_" + Decimal(i + 1)
  }

  /** The corrected name is `hidden_` followed by digits that read back as the layer number `i + 1`. */
  lemma StageNameReadsBack(i: nat)
    ensures var name := StageName(i);
            && |name| > 7 && name[..7] == "hidden_"
            && (forall k :: 7 <= k < |name| ==> IsDigit(name[k]))
            && DigitsValue(name[7..]) == i + 1
  {
    var digits := Decimal(i + 1);
    assert StageName(i)[7..] == digits;
    DigitsRoundTrip(i + 1);
  }

  /** The full scope of stage `i` on one side ("encoder" or "decoder"). */
  function StageScope(role: string, i: nat): string {
    Scoped(Scoped(ScopeName, role), StageName(i))
  }

  /** One built stage: its scope, its (possibly gated) input, its kernel and its output. */
  datatype Stage = Stage(scope: string, input: Gate, filter: Kernel, output: Tensor)

  // Reference description of the built graph, depth by depth.

  /** Spatial size at depth `k`: the input's size pooled `k` times. */
  function LevelSize(m: Model, pool: Size -> Size, k: nat): Size
    requires Valid(m)
  {
    if k == 0 then m.input.shape.dims.size else pool(LevelSize(m, pool, k - 1))
  }

  /** The encoder output at depth `k`; depth 0 is the input itself. */
  function EncodedAt(m: Model, pool: Size -> Size, k: nat): Tensor
    requires Valid(m) && k <= m.layerNum
  {
    if k == 0 then m.input else Tensor(Encoded(k), Image(Dims(LevelSize(m, pool, k), m.channels[k])))
  }

  /** The output of decoder stage `k`: a reconstruction of depth `k`. */
  function ReconstructedAt(m: Model, pool: Size -> Size, k: nat): Tensor
    requires Valid(m) && k <= m.layerNum
  {
    Tensor(Reconstructed(k), Image(Dims(LevelSize(m, pool, k), m.channels[k])))
  }

  /** The tensor at depth `k` on the way back up: the deepest encoding, or a reconstruction. */
  function Above(m: Model, pool: Size -> Size, k: nat): Tensor
    requires Valid(m) && k <= m.layerNum
  {
    if k == m.layerNum then EncodedAt(m, pool, k) else ReconstructedAt(m, pool, k)
  }

  /** Encoder stage `i`: depth `i` to depth `i + 1`. */
  function EncoderStageAt(m: Model, ks: seq<KernelSize>, pool: Size -> Size, i: nat): Stage
    requires Valid(m) && |ks| == m.layerNum && i < m.layerNum
  {
    var open := EncodedAt(m, pool, i);
    Stage(StageScope("encoder", i), GateFor(i, open, ZerosLike(open)),
          Kernel(ks[i], m.channels[i], m.channels[i + 1]), EncodedAt(m, pool, i + 1))
  }

  /** Decoder stage `i`: depth `i + 1` back to depth `i`, falling back on the encoding of depth `i + 1`. */
  function DecoderStageAt(m: Model, ks: seq<KernelSize>, pool: Size -> Size, i: nat): Stage
    requires Valid(m) && |ks| == m.layerNum && i < m.layerNum
  {
    Stage(StageScope("decoder", i), DecoderGate(i, m.layerNum, Above(m, pool, i + 1), EncodedAt(m, pool, i + 1)),
          Kernel(ks[i], m.channels[i + 1], m.channels[i]), ReconstructedAt(m, pool, i))
  }

  // The builder.

  /** What the encode loop accumulates: `size_each_hidden`, `encoded`, and the stages built. */
  datatype Encoding = Encoding(sizes: seq<Size>, encoded: seq<Tensor>, stages: seq<Stage>)

  /** The encode loop has run its first `n` stages. */
  ghost predicate EncodedThrough(m: Model, ks: seq<KernelSize>, pool: Size -> Size, e: Encoding, n: nat)
    requires Valid(m) && |ks| == m.layerNum && n <= m.layerNum
  {
    && |e.sizes| == n + 1 && |e.encoded| == n + 1 && |e.stages| == n
    && (forall k :: 0 <= k <= n ==> e.sizes[k] == LevelSize(m, pool, k))
    && (forall k :: 0 <= k <= n ==> e.encoded[k] == EncodedAt(m, pool, k))
    && (forall k :: 0 <= k < n ==> e.stages[k] == EncoderStageAt(m, ks, pool, k))
  }

  /** Encode stages `i` .. `layerNum - 1`, each reading the last output and recording its own. */
  function EncodeLoop(m: Model, ks: seq<KernelSize>, pool: Size -> Size, i: nat, acc: Encoding): (e: Encoding)
    requires Valid(m) && |ks| == m.layerNum && i <= m.layerNum
    requires EncodedThrough(m, ks, pool, acc, i)
    ensures EncodedThrough(m, ks, pool, e, m.layerNum)
    decreases m.layerNum - i
  {
    if i == m.layerNum then acc
    else
      var prev := acc.encoded[|acc.encoded| - 1];
      var filter := Kernel(ks[i], prev.shape.dims.channels, m.channels[i + 1]);
      var out := LayerCodec.Codec(prev.shape.dims, filter, Bool(true), Some(StageName(i)), None, pool).value;
      var hidden := Tensor(Encoded(i + 1), Image(out.dims));
      var stage := Stage(Scoped(Scoped(ScopeName, "encoder"), out.scope), GateFor(i, prev, EncodeBypass(prev)), filter, hidden);
      assert prev == EncodedAt(m, pool, i);
      assert out.dims == Dims(LevelSize(m, pool, i + 1), m.channels[i + 1]);
      EncodeLoop(m, ks, pool, i + 1, Encoding(acc.sizes + [out.dims.size], acc.encoded + [hidden], acc.stages + [stage]))
  }

  /** What the decode loop produces: its stages indexed by stage number, and the final output. */
  datatype Decoding = Decoding(stages: seq<Stage>, output: Tensor)

  /** Decode stages `n - 1` down to 0, starting from `prev`, the tensor at depth `n`. */
  function DecodeLoop(m: Model, ks: seq<KernelSize>, pool: Size -> Size, e: Encoding, n: nat, prev: Tensor): (d: Decoding)
    requires Valid(m) && |ks| == m.layerNum && EncodedThrough(m, ks, pool, e, m.layerNum)
    requires n <= m.layerNum && prev == Above(m, pool, n)
    ensures |d.stages| == n
    ensures forall k :: 0 <= k < n ==> d.stages[k] == DecoderStageAt(m, ks, pool, k)
    ensures d.output == Above(m, pool, 0)
    decreases n
  {
    if n == 0 then Decoding([], prev)
    else
      var i := n - 1;
      var filter := Kernel(ks[i], prev.shape.dims.channels, m.channels[i]);
      var out := LayerCodec.Codec(prev.shape.dims, filter, Bool(false), Some(StageName(i)), Some(e.sizes[i]), pool).value;
      var hidden := Tensor(Reconstructed(i), Image(out.dims));
      var stage := Stage(Scoped(Scoped(ScopeName, "decoder"), out.scope), DecoderGate(i, m.layerNum, prev, e.encoded[i + 1]), filter, hidden);
      var rest := DecodeLoop(m, ks, pool, e, i, hidden);
      Decoding(rest.stages + [stage], rest.output)
  }

  /** The built graph: `size_each_hidden`, `encoded`, both stacks of stages, and `decoded`. */
  datatype Built = Built(model: Model, sizes: seq<Size>, encoded: seq<Tensor>,
                         encoder: seq<Stage>, decoder: seq<Stage>, decoded: Tensor)

  /** `b` is the graph built for `m` with per-layer kernel sizes `ks` and pooling size map `pool`. */
  ghost predicate BuiltFrom(m: Model, ks: seq<KernelSize>, pool: Size -> Size, b: Built)
    requires Valid(m) && |ks| == m.layerNum
  {
    && b.model == m
    && EncodedThrough(m, ks, pool, Encoding(b.sizes, b.encoded, b.encoder), m.layerNum)
    && |b.decoder| == m.layerNum
    && (forall k :: 0 <= k < m.layerNum ==> b.decoder[k] == DecoderStageAt(m, ks, pool, k))
    && b.decoded == Above(m, pool, 0)
  }

  /** `gen_model(filter_sizes)`: validate `filter_sizes`, run the encode loop, then the decode loop. */
  function Build(m: Model, filterSizes: seq<KernelSize>, pool: Size -> Size): (r: Result<Built>)
    requires Valid(m)
    ensures r.Ok? <==> FilterSizesAccepted(|filterSizes|, m.layerNum)
    ensures r.Err? ==> r.error == ValueError(FilterSizesLength)
    ensures r.Ok? ==> BuiltFrom(m, Broadcast(filterSizes, m.layerNum), pool, r.value)
  {
    if !FilterSizesAccepted(|filterSizes|, m.layerNum) then Err(ValueError(FilterSizesLength))
    else
      var ks := Broadcast(filterSizes, m.layerNum);
      var e := EncodeLoop(m, ks, pool, 0, Encoding([m.input.shape.dims.size], [m.input], []));
      var d := DecodeLoop(m, ks, pool, e, m.layerNum, e.encoded[|e.encoded| - 1]);
      Ok(Built(m, e.sizes, e.encoded, e.stages, d.stages, d.output))
  }

  /** The graph has the encoder outputs of every depth. */
  ghost predicate HasAllDepths(b: Built) {
    |b.encoded| == b.model.layerNum + 1
  }

  /** `get_encoded(index)` as written: the bound is compared before the `None` default is applied. */
  function GetEncodedAsWritten(b: Built, index: Option<int>): (r: Result<Tensor>)
    requires HasAllDepths(b)
    ensures index.None? ==> r == Err(TypeError)
    ensures index.Some? && index.value > b.model.layerNum ==> r == Err(ValueError(IndexTooLarge))
    ensures index.Some? && 0 <= index.value <= b.model.layerNum ==> r == Ok(b.encoded[index.value])
    ensures index.Some? && index.value < 0 ==> r == Index(b.encoded, index.value)
  {
    match index
    case None => Err(TypeError)
    case Some(k) => if k > b.model.layerNum then Err(ValueError(IndexTooLarge)) else Index(b.encoded, k)
  }

  /** `get_encoded(index)` with the default `layer_num` applied first. */
  function GetEncoded(b: Built, index: Option<int>): (r: Result<Tensor>)
    requires HasAllDepths(b)
    ensures r.Ok? <==> index.None? || -(b.model.layerNum + 1) <= index.value <= b.model.layerNum
    ensures index.None? ==> r == Ok(b.encoded[b.model.layerNum])
    ensures index.Some? && index.value > b.model.layerNum ==> r == Err(ValueError(IndexTooLarge))
    ensures index.Some? && 0 <= index.value <= b.model.layerNum ==> r == Ok(b.encoded[index.value])
    ensures index.Some? && index.value < -(b.model.layerNum + 1) ==> r == Err(IndexError)
  {
    var k := if index.None? then b.model.layerNum else index.value;
    if k > b.model.layerNum then Err(ValueError(IndexTooLarge)) else Index(b.encoded, k)
  }
}
