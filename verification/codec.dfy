/**
 * One encoder or decoder stage: an optional nearest-neighbour resize, a
 * stride-1 SAME convolution with bias and ReLU, and an optional max-pool,
 * followed through on shapes only. The convolution's static shape check
 * (kernel input channels equal to the image's) raises while the graph is built.
 */
module LayerCodec {
  import opened Python
  import opened Shapes

  /** Nearest-neighbour resize: the spatial size becomes `newSize`, channels are kept. */
  function Resize(x: Dims, newSize: Size): Dims {
    Dims(newSize, x.channels)
  }

  /** Stride-1 SAME convolution, bias and ReLU: the spatial size is kept, channels become the kernel's output count. */
  function Convolve(x: Dims, filter: Kernel): Dims {
    Dims(x.size, filter.outChannels)
  }

  /** Max-pooling; `pool` is the size map the pooling window and strides induce. */
  function MaxPool(x: Dims, pool: Size -> Size): Dims {
    Dims(pool(x.size), x.channels)
  }

  /** What a stage produces: the variable scope it opened and its output's dimensions. */
  datatype Output = Output(scope: string, dims: Dims)

  /** The scope a stage opens when no name is given. */
  function DefaultName(isEncode: bool): string {
    if isEncode then "encoder" else "decoder"
  }

  /**
   * `codec(imgs, filter, is_encode, name=..., new_size=...)`: encoding
   * convolves then pools, decoding resizes to `newSize` then convolves.
   */
  function Codec(imgs: Dims, filter: Kernel, isEncode: Value, name: Option<string>,
                 newSize: Option<Size>, pool: Size -> Size): (r: Result<Output>)
    ensures !isEncode.Bool? ==> r == Err(ValueError(ModeNotBool))
    ensures isEncode == Bool(false) && newSize.None? ==> r == Err(ValueError(NewSizeMissing))
    ensures isEncode.Bool? && (isEncode.b || newSize.Some?) && filter.inChannels != imgs.channels
            ==> r == Err(ValueError(ChannelMismatch))
    ensures r.Ok? <==> isEncode.Bool? && (isEncode.b || newSize.Some?) && filter.inChannels == imgs.channels
    ensures r.Ok? ==> r.value.dims.channels == filter.outChannels
    ensures r.Ok? && isEncode.b ==> r.value.dims.size == pool(imgs.size)
    ensures r.Ok? && !isEncode.b ==> r.value.dims.size == newSize.value
    ensures r.Ok? && name.Some? ==> r.value.scope == name.value
    ensures r.Ok? && name.None? ==> r.value.scope == DefaultName(isEncode.b)
  {
    if !isEncode.Bool? then Err(ValueError(ModeNotBool))
    else
      var scope := if name.Some? then name.value else DefaultName(isEncode.b);
      if !isEncode.b && newSize.None? then Err(ValueError(NewSizeMissing))
      else
        var upsampled := if isEncode.b then imgs else Resize(imgs, newSize.value);
        if filter.inChannels != upsampled.channels then Err(ValueError(ChannelMismatch))
        else
          var activation := Convolve(upsampled, filter);
          var out := if isEncode.b then MaxPool(activation, pool) else activation;
          Ok(Output(scope, out))
  }

  /**
   * A decoding stage with the transposed kernel, aimed at the size an
   * encoding stage started from, gives back that stage's input dimensions,
   * whatever the pooling does to sizes.
   */
  lemma DecodeUndoesEncodeShape(x: Dims, size: KernelSize, hidden: nat, pool: Size -> Size)
    ensures var e := Codec(x, Kernel(size, x.channels, hidden), Bool(true), None, None, pool);
            && e.Ok?
            && e.value.dims == Dims(pool(x.size), hidden)
            && var d := Codec(e.value.dims, Kernel(size, hidden, x.channels), Bool(false), None, Some(x.size), pool);
               d == Ok(Output("decoder", x))
  {
  }
}
