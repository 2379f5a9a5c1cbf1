/**
 * Tensors reduced to their static shapes. The batch dimension never takes
 * part in the bookkeeping and is dropped once the input is validated.
 */
module Shapes {

  /** One static dimension: known, or `None` in the source. */
  datatype Dim = Known(n: nat) | Unknown

  /** Static shape of the 4-D input tensor: (batch, height, width, channels). */
  datatype InputShape = InputShape(batch: Dim, height: Dim, width: Dim, channels: Dim)

  /** Spatial size (height, width) of a feature map. */
  datatype Size = Size(h: nat, w: nat)

  /** Spatial size and channel count of an image tensor. */
  datatype Dims = Dims(size: Size, channels: nat)

  /** A rank-0 scalar, or an image batch of the given dimensions. */
  datatype Shape = Scalar | Image(dims: Dims)

  /**
   * Where a tensor comes from: the model's input, the zero constant, the
   * encoder output at a depth, or the decoder's reconstruction of a depth.
   */
  datatype Origin = ModelInput | ZeroConstant | Encoded(depth: nat) | Reconstructed(depth: nat)

  datatype Tensor = Tensor(origin: Origin, shape: Shape)

  /** A kernel's spatial extent, one entry of `filter_sizes`. */
  datatype KernelSize = KernelSize(h: int, w: int)

  /** A full convolution kernel shape: extent, input channels, output channels. */
  datatype Kernel = Kernel(size: KernelSize, inChannels: nat, outChannels: nat)

  /** The size map of the default pooling (2x2 window, stride 2, SAME padding): each side halved, rounding up. */
  function HalveSame(s: Size): (r: Size)
    ensures s.h <= 2 * r.h <= s.h + 1
    ensures s.w <= 2 * r.w <= s.w + 1
  {
    Size((s.h + 1) / 2, (s.w + 1) / 2)
  }
}
