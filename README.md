# DeepReg network assembly, LocalNet level schedule and training-run rules, in Dafny

DeepReg registers a moving 3D image to a fixed one: a backbone network predicts
a dense displacement field (DDF), or a velocity field (DVF) that is integrated
into one, and the moving image and label are warped by it. This project models
the exact bookkeeping around the numerics:

- **LocalNet** (`localnet.dfy`). This is the multi-level backbone. Its
  constructor derives E = max and D = min of the extraction levels, the channel
  widths `nc[l] = c * 2^l`, E down-sample blocks, one bottleneck block, E − D
  up-sample blocks and one extract layer per level. Its forward pass fills the
  `encoded` list (skips of levels 0..E−1) and the `decoded` list (levels E down
  to D), then averages one projection per extraction level.
- **Network assembly** (`network.py`, modelled in `network.dfy`). This covers:
  - backbone choice by name, including the in-place fix-up of `out_activation`
    (`""` becomes `None`);
  - the four task graphs (ddf, dvf, conditional, seg): their backbone inputs,
    output channels, integration and warping;
  - the dispatch on the method;
  - the loss and metric terms that `add_loss_metric` appends to the model, in
    order.
- **Training run** (`train.dfy`). This covers log-directory normalisation, the
  log folder choice (the clock's timestamp is a parameter), the `.ckpt` check,
  and the `//` step counts.

Tensors are never computed. `Graph.Tensor` is a symbolic term: each layer
(down/up-sample blocks, convolution, extract layer, Resize3d, Warping, IntDVF,
the loss functions) is an uninterpreted constructor. So a tensor value records
exactly which layer was applied to which inputs. `network.dfy` gives shapes only
to the operations it builds itself: inputs, `expand_dims`, `Resize3d` and
`concat`.

Imperative code stays imperative:
- `LocalNet.call`'s loops are the `for` loops of `Encode`, `Decode` and
  `Extract`. They are proved against the level-indexed definitions `PooledAt`,
  `SkipAt`, `DecodedAt` and `Output`. `Decode` is stated on its own inputs
  (`DecodedFrom`), and a lemma ties that to `DecodedAt`.
- The configuration dictionary is a class. Its `backbone` map is updated in
  place.
- The Keras model is a class. Its `losses` and `metrics` sequences grow through
  `AddLoss` and `AddMetric`.
- Each builder method is proved to produce exactly the pure description
  `ModelSpecFor` / `BuildModelSpec`. The lemmas about the model are stated on
  that description.

Python runtime errors in the modelled code are results, not preconditions:
- `max()` of an empty level list raises `ValueError`;
- `log_dir[-1]` of an empty string raises `IndexError`;
- `// 0` raises `ZeroDivisionError`.

Four facts about the code shape the model:
- Both registration builders pass `None` as the fixed label to
  `add_loss_metric`, so the ddf and dvf models never get a label loss.
- The conditional and segmentation builders add no loss or metric at all.
- The extraction levels are never range-checked: D and E are derived from the
  levels themselves.
- The dvf model is named `"DDFRegModel"`, the same as the ddf model.

## Model

| member | source | states |
|---|---|---|
| `LocalNet.MaxOf` | deepreg/model/backbone/local_net.py:30 | E is one of the levels and no level exceeds it |
| `LocalNet.MinOf` | deepreg/model/backbone/local_net.py:31 | D is one of the levels and no level is below it |
| `LocalNet.Channels` | deepreg/model/backbone/local_net.py:35 | `nc` has E+1 entries, starts at `num_channel_initial` and doubles from each level to the next |
| `LocalNet.ChannelsAt` | deepreg/model/backbone/local_net.py:35 | any list that starts at `num_channel_initial` and doubles from entry to entry, as `Channels` is proved to, holds `num_channel_initial * 2^l` at every index l |
| `LocalNet.ChannelRatio` | deepreg/model/backbone/local_net.py:35 | going up from level i to level j multiplies the width by `2^(j-i)` |
| `LocalNet.DownBlocks` | deepreg/model/backbone/local_net.py:36-37 | exactly E down-sample blocks; block i has `nc[i]` filters, kernel 7 for block 0 and 3 otherwise |
| `LocalNet.UpBlocks` | deepreg/model/backbone/local_net.py:40-41 | exactly E−D up-sample blocks; block idx serves level E−1−idx with `nc[E-1-idx]` filters |
| `LocalNet.Construct` | deepreg/model/backbone/local_net.py:30-48 | for a non-empty level list, the net satisfies the shape facts, its block widths follow `nc` and every extract layer is the given one |
| `LocalNet.Build` | deepreg/model/backbone/local_net.py:26-48 | an empty level list gives ValueError; otherwise E is the max and D the min, every level lies in [D, E], the down, bottleneck and up blocks have the widths above, and there is one extract layer per level, duplicates included, each with the image size, out channels, initializer and activation |
| `LocalNet.Encode` | deepreg/model/backbone/local_net.py:59-65 | after the encode loop `encoded` has length E, `encoded[i]` is the skip of level i, and `h` has passed through all E down-sample blocks |
| `LocalNet.PooledAt` | deepreg/model/backbone/local_net.py:61-64 | `h` after the down-sample blocks of levels 0 to l−1, each taking the previous `h` (a definition, used by the contracts of `Encode` and `DecodedFromEncoder`) |
| `LocalNet.SkipAt` | deepreg/model/backbone/local_net.py:61-64 | the skip output `hc` of the down-sample block of level l, taken on `PooledAt(l)` (a definition, used by the contract of `Encode` and the requires of `DecodedFromEncoder`) |
| `LocalNet.BottleneckOut` | deepreg/model/backbone/local_net.py:65 | the bottleneck block applied to `h` after all E down-sample blocks (a definition, used by `DecodedAt`, `DecodedFromEncoder` and `SingleLevelOutput`) |
| `LocalNet.Decode` | deepreg/model/backbone/local_net.py:67-72 | `decoded` has length E−D+1 and `decoded[k]` is the tensor of level E−k obtained from the bottleneck output by up-sampling with the skips of `encoded`; every read of `encoded[E-idx-1]` is in bounds |
| `LocalNet.DecodedFrom` | deepreg/model/backbone/local_net.py:68-72 | the decoder on the loop's own inputs: `hm0` at level E, and below it up-sample block E−1−l on the level above and `encoded[l]` (a definition, used by the contract of `Decode` and tied to `DecodedAt` by `DecodedFromEncoder`) |
| `LocalNet.DecodedFromEncoder` | deepreg/model/backbone/local_net.py:59-72 | fed the bottleneck output and the encoder's skips, the decoder yields the level-indexed decoded tensor at every level from E down to D |
| `LocalNet.Extract` | deepreg/model/backbone/local_net.py:74-76 | every read `decoded[E - level]` is in bounds and the output is the mean of exactly one projection per extraction level, projection idx applied to the decoded tensor of `extract_levels[idx]` |
| `LocalNet.DecodedAt` | deepreg/model/backbone/local_net.py:64-72 | the level-indexed decoder: the bottleneck output at level E, and below it up-sample block E−1−l applied to the level above and the skip of level l (a definition, used by the contracts of `Decode`, `DecodedFromEncoder`, `Extract`) |
| `LocalNet.Projection` | deepreg/model/backbone/local_net.py:75 | extract layer idx applied to the decoded tensor of level `extract_levels[idx]` (a definition, used by `Output` and the loop invariant of `Extract`) |
| `LocalNet.Output` | deepreg/model/backbone/local_net.py:74-76 | the network output: the mean of projection idx of `decoded` at level `extract_levels[idx]`, one per extraction level in order (a definition, used by the contracts of `Extract` and `Call`) |
| `LocalNet.Call` | deepreg/model/backbone/local_net.py:50-77 | the forward pass computes exactly `Output` of the level-indexed definition |
| `LocalNet.SingleLevelOutput` | deepreg/model/backbone/local_net.py:68-76 | with one extraction level, E = D, there are no up-sample blocks, and the output fuses exactly one projection, that of the bottleneck |
| `Network.FixOutActivation` | deepreg/model/network.py:21-23 | an empty-string `out_activation` becomes None; a non-empty one leaves the dictionary as it was; every key and every other entry is kept |
| `Network.FixOutActivationIdempotent` | deepreg/model/network.py:21-23 | applying the fix-up twice equals applying it once |
| `Network.SelectBackbone` | deepreg/model/network.py:25-36 | `"local"` builds LocalNet from the `local` parameters, `"unet"` builds UNet from the `unet` parameters, any other name gives `ValueError("Unknown model name")`; the built backbone has the requested out channels and the configured activation; a LocalNet has the configured levels, block widths following `nc` from `num_channel_initial`, and every extract layer with the image size, out channels, initializer and activation; a UNet is built from exactly the image size, out channels, initializer, activation and `unet` parameters |
| `Network.ApplyBackbone` | deepreg/model/network.py:75 | a built backbone called on one input: LocalNet's `Output`, or the UNet node (a definition, used by the forward passes, `ModelSpecFor` and `RegistrationWiring`; the same call is at network.py:174, 275 and 306) |
| `Network.BuildBackbone` | deepreg/model/network.py:11-36 | the caller's backbone dictionary is replaced by its fixed-up version in place, then the backbone is selected from it; the `local` levels matter only when the name is `"local"` |
| `Network.ParseMethod` | deepreg/model/network.py:317-331 | a recognised method is the one named by the value; anything else gives `ValueError("Unknown model method")` |
| `Network.MethodRoundTrip` | deepreg/model/network.py:317-331 | each of ddf, dvf, conditional and seg is dispatched to its own builder |
| `Network.OutChannelsFor` | deepreg/model/network.py:124 | the backbone's out_channels: 3 for ddf and dvf (network.py:124 and 224), 1 for conditional and seg (network.py:271 and 302) (a definition; `SelectBackbone` proves the built backbone has it, and `BuildWith` passes it) |
| `Network.BuildModelErrors` | deepreg/model/network.py:317-331 | an unknown method is reported first, then an unknown backbone name, then an empty LocalNet level list; otherwise the model is built |
| `Network.PlanMetricNames` | deepreg/model/network.py:94-117 | metric names in order: the two image metrics only for a positive image weight, the two regularization metrics always, the label metric only when a fixed label is given |
| `Network.PlanLossesAreWeightedMetrics` | deepreg/model/network.py:94-117 | the number of losses and metrics; each added loss is the weighted metric value (image weight, regularization weight) or the label loss |
| `Network.Plan` | deepreg/model/network.py:94-117 | the losses and metrics `add_loss_metric` adds, in order (a definition; its properties are `PlanMetricNames` and `PlanLossesAreWeightedMetrics`) |
| `Network.ImageLoss` | deepreg/model/network.py:96-99 | `reduce_mean` of the image similarity of fixed and predicted image under the `similarity.image` config (a definition, used by `Plan`, `AddLossMetric` and `RegistrationLosses`) |
| `Network.RegularizationLoss` | deepreg/model/network.py:105-106 | `reduce_mean` of the local displacement energy of the DDF under the `regularization` config (a definition, used by `Plan`, `AddLossMetric` and `RegistrationLosses`) |
| `Network.KerasModel.AddLoss` | deepreg/model/network.py:100 | Keras `add_loss`: appends the tensor to the model's losses and changes nothing else |
| `Network.KerasModel.AddMetric` | deepreg/model/network.py:101 | Keras `add_metric`: appends the value with its name and aggregation to the model's metrics and changes nothing else |
| `Network.AddLossMetric` | deepreg/model/network.py:83-117 | appends exactly the planned losses and metrics, in order, to the model's lists |
| `Network.ModelInputs` | deepreg/model/network.py:39-48 | the four `tf.keras.Input`s: moving image and moving label of the moving size, fixed image of the fixed size, indices of `index_size`, all with the batch size (a definition; see `SharedInterface`) |
| `Network.RegistrationInput` | deepreg/model/network.py:72-74 | the ddf/dvf backbone input: the moving image resized to the fixed size, concatenated on axis 4 with the fixed image (a definition; its shape is proved by `BackboneInputShapes`; the dvf copy is network.py:171-173) |
| `Network.ConditionalInput` | deepreg/model/network.py:264-268 | the conditional backbone input: resized moving image, fixed image, resized moving label, on axis 4 (a definition; shape in `BackboneInputShapes`) |
| `Network.SegInput` | deepreg/model/network.py:299 | the seg backbone input: the fixed image with a channel axis (a definition; shape in `BackboneInputShapes`) |
| `Network.DdfForward` | deepreg/model/network.py:62-81 | the ddf `forward`: the backbone output is the DDF on the 2-channel input, and image and label are warped by it (a definition; see `RegistrationWiring`) |
| `Network.DvfForward` | deepreg/model/network.py:161-181 | the dvf `forward`: the backbone output is a DVF, the DDF is its IntDVF integral, and image and label are warped by that DDF (a definition; see `RegistrationWiring`) |
| `Network.RegistrationSpec` | deepreg/model/network.py:119-147 | the ddf/dvf model: named `"DDFRegModel"`, four inputs, the warped label as output, `ddf` (and `dvf`) set, and the plan of `add_loss_metric` with no fixed label and an empty suffix (a definition; see `RegistrationLosses`) |
| `Network.ModelSpecFor` | deepreg/model/network.py:119-314 | the model each method builds around a built backbone: `RegistrationSpec` for ddf and dvf, and for conditional and seg the squeezed backbone output with no loss or metric (a definition; see `SharedInterface`, `RegistrationWiring`, `RegistrationLosses`) |
| `Network.BuildWith` | deepreg/model/network.py:119-314 | what each `build_<m>_model` returns from the fixed-up configuration: the backbone's error, or `ModelSpecFor` around the backbone built with `OutChannelsFor(m)` (a definition, used by the contracts of the four builders and by `BuildModelSpec`) |
| `Network.BuildModelSpec` | deepreg/model/network.py:317-331 | `build_model` as a value: the method error, or the backbone error, or the model built from the fixed-up configuration (a definition; see `BuildModelErrors` and `BuildModel`) |
| `Network.SharedInterface` | deepreg/model/network.py:39-48 | every model takes (moving_image, fixed_image, moving_label, indices) in that order and outputs only the predicted fixed label, squeezed on axis 4 for conditional and seg |
| `Network.BackboneInputShapes` | deepreg/model/network.py:72-74 | the backbone input has the fixed image's spatial shape and 2 channels for ddf/dvf, 3 for conditional and 1 for seg |
| `Network.RegistrationWiring` | deepreg/model/network.py:170-181 | the ddf model warps with the backbone output; the dvf model warps with its IntDVF integral; both warp image and label with the same DDF, exposed as `model.ddf` |
| `Network.RegistrationLosses` | deepreg/model/network.py:140-145 | ddf/dvf losses: the weighted image loss on the warped moving image only for a positive weight, then the weighted regularization of the model's DDF; never a label loss |
| `Network.BuildDdfModel` | deepreg/model/network.py:51-147 | on a built backbone with 3 out channels, the returned model is new and equals the ddf description; a backbone error is returned unchanged |
| `Network.BuildDvfModel` | deepreg/model/network.py:150-248 | as for ddf with the dvf description, with both `dvf` and `ddf` set on the model |
| `Network.BuildCondModel` | deepreg/model/network.py:251-283 | on a backbone with 1 out channel, the model outputs the squeezed backbone output on the 3-channel input and has no loss or metric |
| `Network.BuildSegModel` | deepreg/model/network.py:286-314 | on a backbone with 1 out channel, the model outputs the squeezed backbone output on the fixed image alone and has no loss or metric |
| `Network.BuildModel` | deepreg/model/network.py:317-331 | an unknown method fails with `ValueError("Unknown model method")` whatever the backbone dictionary holds, and leaves the configuration untouched; otherwise the configuration is fixed up and the result is exactly `BuildModelSpec` |
| `Train.NormalizeLogDir` | deepreg/train.py:62 | an empty log_dir raises IndexError; one trailing `/` is removed; any other log_dir is kept |
| `Train.NormalizeRemovesOneSlash` | deepreg/train.py:62 | a log_dir ending in `//` keeps one slash |
| `Train.LogFolderName` | deepreg/train.py:65 | a non-empty `--log` is the folder name, otherwise the timestamp |
| `Train.LogDir` | deepreg/train.py:62-66 | the normalised base, `/` and the folder name, or the normalisation's error (a definition; see `LogDirIgnoresTrailingSlash`, `LogDirEndsWithFolder`) |
| `Train.LogDirIgnoresTrailingSlash` | deepreg/train.py:62-66 | the log dir is base + `/` + folder, with or without a trailing slash on the base |
| `Train.LogDirEndsWithFolder` | deepreg/train.py:65-66 | a non-empty configured log_dir yields a dir ending with `/` + folder name |
| `Train.CheckpointToLoad` | deepreg/train.py:68-71 | the empty path loads nothing; a non-empty path that does not end with `.ckpt` raises ValueError; otherwise the path itself is loaded |
| `Train.CheckpointSuffixAccepted` | deepreg/train.py:70 | every path ending with `.ckpt`, `.ckpt` alone included, is accepted |
| `Train.EndsWith` | deepreg/train.py:70 | `str.endswith`: the suffix fits and the string's tail equals it (a definition, used by `CheckpointToLoad`) |
| `Train.FloorDiv` | deepreg/train.py:124 | Python `//` is floor division, for either sign of the divisor |
| `Train.StepCount` | deepreg/train.py:124-127 | a zero batch size raises ZeroDivisionError; otherwise the count is the floor quotient |
| `Train.StepCountBounds` | deepreg/train.py:124 | with batch_size ≥ 1 the step count lies between 0 and the dataset size, and the steps cover all but fewer than one batch |
| `Train.PlanRun` | deepreg/train.py:62-127 | what `main` derives before training, checking log dir, checkpoint and both step counts in source order (a definition; see `PlanRunOutcome`) |
| `Train.PlanRunOutcome` | deepreg/train.py:62-127 | errors are raised in source order (log_dir, checkpoint, batch size); the run succeeds exactly when none applies; weights are loaded exactly for a non-empty checkpoint path |

## Left out

- Tensor numerics are uninterpreted constructors of `Graph.Tensor`: Resize3d, Warping, IntDVF, the convolution and residual blocks, Conv3dWithResize, and the image, label and deformation losses. Their code (`deepreg/model/layer.py` and the loss modules) is not part of this model.
- `LocalNet.SingleLevelOutput`: `reduce_mean` over one stacked tensor is the identity numerically. The model keeps the `Mean` node over a single projection, because it gives tensor averages no meaning.
- UNet is not part of this model. Only its selection by name, and the arguments it is built with, are modelled.
- Keras `Model` construction details, `compile`, `fit`, `summary` and the callbacks are left out, as are the metrics classes passed to `compile`.
- `tf.distribute.MirroredStrategy` is left out: it is runtime concurrency.
- The click command-line options, the environment-variable writes, `os.makedirs`, config load and save, and the data loaders are left out: they are I/O. Dataset sizes and the batch size are parameters.
- `datetime.now()` is left out: its formatted timestamp is a parameter.
- Missing dictionary keys (a Python `KeyError`) are a precondition (`Network.BackboneKeys`), not an error result. It is required only once the method is recognised, since `build_model` reads no backbone key before that.
- `**kwargs` argument mismatches (a Python `TypeError`) are not modelled. The LocalNet parameters are a typed record.
- Negative extraction levels are a precondition of building a LocalNet (`Network.BackboneConfigured` asks for them only when the backbone name is `"local"`, and `LocalNet.Build` requires them). With such a level, Python's negative list indexing either raises IndexError or silently reads from the end of a list, depending on the levels: `[-2]` raises at `nc[-1]` in `__init__` (`nc` is empty); `[-1, 0]` raises at `encoded[-1]` in `call` (`encoded` is empty); `[-1, 2]` silently reads `nc[-1]` and `encoded[-1]`.
- `Network.AddLossMetric` requires a predicted label whenever a fixed label is given. No caller ever passes a fixed label.
- Errors raised between the checkpoint check and `model.fit` (data loading, model building) are not part of `Train.PlanRun`.
