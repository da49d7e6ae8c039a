/** Shared vocabulary of the DeepReg model: configuration values, the errors
    Python raises in the modelled code, layer configurations, and a symbolic
    tensor datatype.

    Tensors are never computed: every layer of the TensorFlow graph is an
    uninterpreted constructor, so a `Tensor` value records exactly which
    layers were applied to which inputs, in which order. */
module Graph {

  datatype Option<+T> = None | Some(value: T)

  /** The Python exceptions that the modelled code can raise, with their messages. */
  datatype Error =
    | ValueError(message: string)
    | IndexError(message: string)
    | ZeroDivisionError(message: string)

  datatype Result<+T> = Ok(value: T) | Err(error: Error)

  /** A value the modelled code reads from or writes to a configuration
      dictionary: a Python str or None. */
  datatype Value = Str(s: string) | Null

  /** `layer.DownSampleResnetBlock(filters, kernel_size)` */
  datatype DownBlock = DownBlock(filters: int, kernelSize: nat)

  /** `layer.Conv3dBlock(filters)` */
  datatype ConvBlock = ConvBlock(filters: int)

  /** `layer.LocalNetUpSampleResnetBlock(filters)` */
  datatype UpBlock = UpBlock(filters: int)

  /** `layer.Conv3dWithResize(output_shape, filters, kernel_initializer, activation)` */
  datatype ExtractLayer = ExtractLayer(outputShape: seq<int>, filters: int, kernelInitializer: Value, activation: Value)

  /** A UNet backbone, kept as the arguments it was built from. */
  datatype UNetSpec = UNetSpec(imageSize: seq<int>, outChannels: int, kernelInitializer: Value, activation: Value, params: map<string, Value>)

  /** A loss sub-configuration that carries a weight (`similarity.image`, `regularization`). */
  datatype TermConfig = TermConfig(weight: real, params: map<string, Value>)

  /** A node of the computation graph. */
  datatype Tensor =
    | Input(name: string, batchSize: int, dims: seq<int>)          // tf.keras.Input, shape [batch] + dims
    | ExpandDims(x: Tensor, axis: nat)                               // tf.expand_dims
    | Concat(parts: seq<Tensor>, axis: nat)                          // tf.concat
    | Squeeze(x: Tensor, axis: nat)                                  // tf.squeeze
    | Resize(size: seq<int>, x: Tensor)                              // layer.Resize3d
    | DownPooled(level: nat, down: DownBlock, x: Tensor)             // first output of a down-sample block
    | DownSkip(level: nat, down: DownBlock, x: Tensor)               // second (skip) output of a down-sample block
    | Conv(conv: ConvBlock, x: Tensor)                               // layer.Conv3dBlock
    | UpSample(index: nat, up: UpBlock, coarse: Tensor, skip: Tensor) // up-sample block number `index`
    | Project(index: nat, extract: ExtractLayer, x: Tensor)          // extract layer number `index`
    | Mean(parts: seq<Tensor>)                                       // reduce_mean(stack(parts, axis=5), axis=5)
    | UNetOut(unet: UNetSpec, x: Tensor)                             // a UNet applied to x
    | Warp(size: seq<int>, ddf: Tensor, image: Tensor)               // layer.Warping
    | IntDvf(size: seq<int>, dvf: Tensor)                            // layer.IntDVF
    | ImageSimilarity(yTrue: Tensor, yPred: Tensor, imageConfig: TermConfig)
    | DisplacementEnergy(field: Tensor, regularizationConfig: TermConfig)
    | LabelSimilarity(labelConfig: map<string, Value>, yTrue: Tensor, yPred: Tensor)
    | ReduceMean(x: Tensor)                                          // tf.reduce_mean over all axes
    | Scale(x: Tensor, factor: real)                                 // x * factor
}
