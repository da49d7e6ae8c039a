/** Network assembly (deepreg/model/network.py): choosing a backbone by name,
    wiring it into one of four task graphs, and the plan of losses and
    metrics attached to a registration model.

    The pure part (`SelectBackbone`, the forward wiring, `Plan`,
    `ModelSpecFor`, `BuildModelSpec`) says what gets built. The imperative part
    (`ModelConfig`, `KerasModel`, `BuildBackbone`, `AddLossMetric` and the
    builders) updates the configuration dictionary and the model's loss and
    metric lists in place, and is proved to build exactly that. */
module Network {
  import opened Graph
  import LocalNet

  // ---------------------------------------------------------------------------
  // Backbone selection

  /** The keyword arguments `**tf_model_config["local"]` passed to LocalNet. */
  datatype LocalParams = LocalParams(numChannelInitial: int, extractLevels: seq<int>)

  datatype Backbone = Local(net: LocalNet.Net) | UNet(unet: UNetSpec)

  /** LocalNet's levels must be non-negative so that no list is indexed from its end. */
  predicate LevelsNonNegative(p: LocalParams) {
    forall i :: 0 <= i < |p.extractLevels| ==> p.extractLevels[i] >= 0
  }

  /** The keys of the "backbone" sub-dictionary that `build_backbone` reads. */
  predicate BackboneKeys(backbone: map<string, Value>) {
    && "name" in backbone
    && "out_activation" in backbone
    && (backbone["name"] == Str("local") || backbone["name"] == Str("unet") ==> "out_kernel_initializer" in backbone)
  }

  /** What `build_backbone` needs of the configuration: the keys it reads, and
      non-negative levels when it builds a LocalNet from the `local` section
      (a UNet never reads that section). */
  predicate BackboneConfigured(backbone: map<string, Value>, local: LocalParams) {
    && BackboneKeys(backbone)
    && (backbone["name"] == Str("local") ==> LevelsNonNegative(local))
  }

  predicate WellFormed(b: Backbone) {
    b.Local? ==> LocalNet.Valid(b.net)
  }

  function OutChannelsOf(b: Backbone): int
    requires WellFormed(b)
  {
    match b
    case Local(net) => net.extractLayers[0].filters
    case UNet(u) => u.outChannels
  }

  function ActivationOf(b: Backbone): Value
    requires WellFormed(b)
  {
    match b
    case Local(net) => net.extractLayers[0].activation
    case UNet(u) => u.activation
  }

  /** An empty-string `out_activation` becomes None; every other entry is kept. */
  function FixOutActivation(backbone: map<string, Value>): (r: map<string, Value>)
    requires "out_activation" in backbone
    ensures r.Keys == backbone.Keys
    ensures forall k :: k in backbone && k != "out_activation" ==> r[k] == backbone[k]
    ensures r["out_activation"] != Str("")
    ensures backbone["out_activation"] == Str("") ==> r == backbone["out_activation" := Null]
    ensures backbone["out_activation"] != Str("") ==> r == backbone
  {
    if backbone["out_activation"] == Str("") then backbone["out_activation" := Null] else backbone
  }

  /** Fixing the activation twice is the same as fixing it once. */
  lemma FixOutActivationIdempotent(backbone: map<string, Value>)
    requires "out_activation" in backbone
    ensures FixOutActivation(FixOutActivation(backbone)) == FixOutActivation(backbone)
  {
  }

  /** The name dispatch of `build_backbone`. */
  function SelectBackbone(backbone: map<string, Value>, local: LocalParams, unet: map<string, Value>,
                          imageSize: seq<int>, outChannels: int): (r: Result<Backbone>)
    requires BackboneConfigured(backbone, local)
    ensures r.Ok? <==> backbone["name"] == Str("unet") || (backbone["name"] == Str("local") && |local.extractLevels| > 0)
    ensures backbone["name"] != Str("local") && backbone["name"] != Str("unet") ==> r == Err(ValueError("Unknown model name"))
    ensures r.Ok? ==> WellFormed(r.value) && OutChannelsOf(r.value) == outChannels
    ensures r.Ok? ==> ActivationOf(r.value) == backbone["out_activation"]
    ensures r.Ok? ==> (r.value.Local? <==> backbone["name"] == Str("local"))
    ensures r.Ok? && r.value.Local? ==>
      var net := r.value.net;
      && net.extractLevels == local.extractLevels
      && LocalNet.BlocksFollowChannels(net, LocalNet.Channels(local.numChannelInitial, net.maxLevel))
      && forall idx :: 0 <= idx < |net.extractLayers| ==>
           net.extractLayers[idx]
           == ExtractLayer(imageSize, outChannels, backbone["out_kernel_initializer"], backbone["out_activation"])
    ensures r.Ok? && r.value.UNet? ==>
      r.value.unet == UNetSpec(imageSize, outChannels, backbone["out_kernel_initializer"], backbone["out_activation"], unet)
  {
    if backbone["name"] == Str("local") then
      match LocalNet.Build(imageSize, outChannels, local.numChannelInitial, local.extractLevels,
                           backbone["out_kernel_initializer"], backbone["out_activation"])
      case Ok(net) => Ok(Local(net))
      case Err(e) => Err(e)
    else if backbone["name"] == Str("unet") then
      Ok(UNet(UNetSpec(imageSize, outChannels, backbone["out_kernel_initializer"], backbone["out_activation"], unet)))
    else
      Err(ValueError("Unknown model name"))
  }

  /** A built backbone applied to one input tensor. */
  function ApplyBackbone(b: Backbone, x: Tensor): Tensor
    requires WellFormed(b)
  {
    match b
    case Local(net) => LocalNet.Output(net, x)
    case UNet(u) => UNetOut(u, x)
  }

  // ---------------------------------------------------------------------------
  // Shapes of the tensors network.py builds itself

  /** The shape of a tensor made of inputs, expand_dims, Resize3d and concat;
      None for anything else or for an ill-shaped combination. */
  function ShapeOf(t: Tensor): Option<seq<int>>
  {
    match t
    case Input(_, batch, dims) => Some([batch] + dims)
    case ExpandDims(x, axis) =>
      (match ShapeOf(x)
       case Some(s) => if axis <= |s| then Some(s[..axis] + [1] + s[axis..]) else None
       case None => None)
    case Resize(size, x) =>
      (match ShapeOf(x)
       case Some(s) => if |s| == 5 && |size| == 3 then Some([s[0]] + size + [s[4]]) else None
       case None => None)
    case Concat(parts, axis) =>
      ConcatShape(seq(|parts|, i requires 0 <= i < |parts| => ShapeOf(parts[i])), axis)
    case _ => None
  }

  /** The shape of a concatenation along `axis`: all parts agree off the axis,
      and their sizes on the axis add up. */
  function ConcatShape(shapes: seq<Option<seq<int>>>, axis: nat): Option<seq<int>>
  {
    if |shapes| == 0 then None
    else if |shapes| == 1 then
      (if shapes[0].Some? && axis < |shapes[0].value| then shapes[0] else None)
    else
      match (shapes[0], ConcatShape(shapes[1..], axis))
      case (Some(a), Some(b)) =>
        if |a| == |b| && axis < |a| && a[..axis] == b[..axis] && a[axis + 1..] == b[axis + 1..]
        then Some(a[..axis] + [a[axis] + b[axis]] + a[axis + 1..])
        else None
      case _ => None
  }

  // ---------------------------------------------------------------------------
  // Inputs and forward wiring

  /** `build_inputs`: the four model inputs, in order. */
  function ModelInputs(movingSize: seq<int>, fixedSize: seq<int>, indexSize: int, batchSize: int): seq<Tensor>
  {
    [Input("moving_image", batchSize, movingSize),
     Input("fixed_image", batchSize, fixedSize),
     Input("moving_label", batchSize, movingSize),
     Input("indices", batchSize, [indexSize])]
  }

  /** The backbone input of ddf and dvf: resized moving image and fixed image. */
  function RegistrationInput(movingImage: Tensor, fixedImage: Tensor, fixedSize: seq<int>): Tensor {
    Concat([Resize(fixedSize, ExpandDims(movingImage, 4)), ExpandDims(fixedImage, 4)], 4)
  }

  /** The backbone input of the conditional model: adds the resized moving label. */
  function ConditionalInput(movingImage: Tensor, fixedImage: Tensor, movingLabel: Tensor, fixedSize: seq<int>): Tensor {
    Concat([Resize(fixedSize, ExpandDims(movingImage, 4)), ExpandDims(fixedImage, 4),
            Resize(fixedSize, ExpandDims(movingLabel, 4))], 4)
  }

  /** The backbone input of the segmentation model: the fixed image alone. */
  function SegInput(fixedImage: Tensor): Tensor {
    ExpandDims(fixedImage, 4)
  }

  /** The tensors a registration forward pass returns. */
  datatype Forward = Forward(dvf: Option<Tensor>, ddf: Tensor, predImage: Tensor, predLabel: Tensor)

  /** The `forward` of `build_ddf_model`: the backbone output is the DDF. */
  function DdfForward(b: Backbone, movingImage: Tensor, movingLabel: Tensor, fixedImage: Tensor, fixedSize: seq<int>): Forward
    requires WellFormed(b)
  {
    var ddf := ApplyBackbone(b, RegistrationInput(movingImage, fixedImage, fixedSize));
    Forward(None, ddf, Warp(fixedSize, ddf, movingImage), Warp(fixedSize, ddf, movingLabel))
  }

  /** The `forward` of `build_dvf_model`: the backbone output is a DVF, integrated into the DDF. */
  function DvfForward(b: Backbone, movingImage: Tensor, movingLabel: Tensor, fixedImage: Tensor, fixedSize: seq<int>): Forward
    requires WellFormed(b)
  {
    var dvf := ApplyBackbone(b, RegistrationInput(movingImage, fixedImage, fixedSize));
    var ddf := IntDvf(fixedSize, dvf);
    Forward(Some(dvf), ddf, Warp(fixedSize, ddf, movingImage), Warp(fixedSize, ddf, movingLabel))
  }

  // ---------------------------------------------------------------------------
  // Loss and metric plan

  datatype Metric = Metric(value: Tensor, name: string, aggregation: string)

  /** `tf_loss_config`: similarity.image, regularization and similarity.label. */
  datatype LossConfig = LossConfig(image: TermConfig, regularization: TermConfig, labelParams: map<string, Value>)

  /** What `add_loss_metric` appends: losses to `model.losses`, metrics to `model.metrics`. */
  datatype LossPlan = LossPlan(losses: seq<Tensor>, metrics: seq<Metric>)

  function ImageLoss(loss: LossConfig, fixedImage: Tensor, predImage: Tensor): Tensor {
    ReduceMean(ImageSimilarity(fixedImage, predImage, loss.image))
  }

  function RegularizationLoss(loss: LossConfig, ddf: Tensor): Tensor {
    ReduceMean(DisplacementEnergy(ddf, loss.regularization))
  }

  function Plan(loss: LossConfig, fixedImage: Tensor, predImage: Tensor, ddf: Tensor,
                fixedLabel: Option<Tensor>, predLabel: Option<Tensor>, suffix: string): LossPlan
    requires fixedLabel.Some? ==> predLabel.Some?
  {
    var image :=
      if loss.image.weight > 0.0 then
        var l := ImageLoss(loss, fixedImage, predImage);
        var w := Scale(l, loss.image.weight);
        LossPlan([w], [Metric(l, "loss/image_similarity" + suffix, "mean"),
                       Metric(w, "loss/weighted_image_similarity" + suffix, "mean")])
      else LossPlan([], []);
    var r := RegularizationLoss(loss, ddf);
    var wr := Scale(r, loss.regularization.weight);
    var reg := LossPlan([wr], [Metric(r, "loss/regularization" + suffix, "mean"),
                               Metric(wr, "loss/weighted_regularization" + suffix, "mean")]);
    var labelPart :=
      if fixedLabel.Some? then
        var l := LabelSimilarity(loss.labelParams, fixedLabel.value, predLabel.value);
        LossPlan([l], [Metric(l, "loss/label" + suffix, "mean")])
      else LossPlan([], []);
    LossPlan(image.losses + reg.losses + labelPart.losses, image.metrics + reg.metrics + labelPart.metrics)
  }

  function MetricNames(metrics: seq<Metric>): seq<string> {
    seq(|metrics|, i requires 0 <= i < |metrics| => metrics[i].name)
  }

  /** The order of the metric names: the two image metrics only when the image
      weight is positive, then always the two regularization metrics, then the
      label metric only when a fixed label is given. */
  lemma PlanMetricNames(loss: LossConfig, fixedImage: Tensor, predImage: Tensor, ddf: Tensor,
                        fixedLabel: Option<Tensor>, predLabel: Option<Tensor>, suffix: string)
    requires fixedLabel.Some? ==> predLabel.Some?
    ensures MetricNames(Plan(loss, fixedImage, predImage, ddf, fixedLabel, predLabel, suffix).metrics)
         == (if loss.image.weight > 0.0 then ["loss/image_similarity" + suffix, "loss/weighted_image_similarity" + suffix] else [])
          + ["loss/regularization" + suffix, "loss/weighted_regularization" + suffix]
          + (if fixedLabel.Some? then ["loss/label" + suffix] else [])
  {
    var p := Plan(loss, fixedImage, predImage, ddf, fixedLabel, predLabel, suffix);
    var expected := (if loss.image.weight > 0.0 then ["loss/image_similarity" + suffix, "loss/weighted_image_similarity" + suffix] else [])
          + ["loss/regularization" + suffix, "loss/weighted_regularization" + suffix]
          + (if fixedLabel.Some? then ["loss/label" + suffix] else []);
    assert |MetricNames(p.metrics)| == |expected|;
  }

  /** Each loss in the plan is paired with the metric of the same value: the
      weighted image term, the weighted regularization term and the label term. */
  lemma PlanLossesAreWeightedMetrics(loss: LossConfig, fixedImage: Tensor, predImage: Tensor, ddf: Tensor,
                                     fixedLabel: Option<Tensor>, predLabel: Option<Tensor>, suffix: string)
    requires fixedLabel.Some? ==> predLabel.Some?
    ensures var p := Plan(loss, fixedImage, predImage, ddf, fixedLabel, predLabel, suffix);
      var n := if loss.image.weight > 0.0 then 1 else 0;
      && |p.losses| == n + 1 + (if fixedLabel.Some? then 1 else 0)
      && |p.metrics| == 2 * n + 2 + (if fixedLabel.Some? then 1 else 0)
      && (n == 1 ==> p.losses[0] == p.metrics[1].value == Scale(p.metrics[0].value, loss.image.weight))
      && p.losses[n] == p.metrics[2 * n + 1].value == Scale(p.metrics[2 * n].value, loss.regularization.weight)
      && (fixedLabel.Some? ==> p.losses[n + 1] == p.metrics[2 * n + 2].value)
  {
  }

  // ---------------------------------------------------------------------------
  // Models

  datatype Method = Ddf | Dvf | Conditional | Seg

  function MethodName(m: Method): Value {
    match m
    case Ddf => Str("ddf")
    case Dvf => Str("dvf")
    case Conditional => Str("conditional")
    case Seg => Str("seg")
  }

  /** The dispatch of `build_model` on `tf_model_config["method"]`. */
  function ParseMethod(v: Value): (r: Result<Method>)
    ensures r.Ok? ==> MethodName(r.value) == v
    ensures r.Err? ==> r.error == ValueError("Unknown model method")
  {
    if v == Str("ddf") then Ok(Ddf)
    else if v == Str("dvf") then Ok(Dvf)
    else if v == Str("conditional") then Ok(Conditional)
    else if v == Str("seg") then Ok(Seg)
    else Err(ValueError("Unknown model method"))
  }

  /** Every method name is recognised as that method. */
  lemma MethodRoundTrip(m: Method)
    ensures ParseMethod(MethodName(m)) == Ok(m)
  {
    assert "dvf"[1] != "ddf"[1];
    assert "seg"[0] != "ddf"[0] && "seg"[0] != "dvf"[0];
  }

  /** The channel count of the backbone output for each method. */
  function OutChannelsFor(m: Method): int {
    if m == Ddf || m == Dvf then 3 else 1
  }

  /** A built Keras model: its name, inputs, outputs, the `ddf`/`dvf`
      attributes set on it, and the losses and metrics added to it. */
  datatype ModelSpec = ModelSpec(name: string, inputs: seq<Tensor>, outputs: seq<Tensor>,
                                 ddf: Option<Tensor>, dvf: Option<Tensor>,
                                 losses: seq<Tensor>, metrics: seq<Metric>)

  /** What `build_<method>_model` builds around an already built backbone. */
  function ModelSpecFor(m: Method, b: Backbone, movingSize: seq<int>, fixedSize: seq<int>, indexSize: int,
                        batchSize: int, loss: LossConfig): ModelSpec
    requires WellFormed(b)
  {
    var inputs := ModelInputs(movingSize, fixedSize, indexSize, batchSize);
    var movingImage, fixedImage, movingLabel := inputs[0], inputs[1], inputs[2];
    match m
    case Ddf => RegistrationSpec(inputs, DdfForward(b, movingImage, movingLabel, fixedImage, fixedSize), loss)
    case Dvf => RegistrationSpec(inputs, DvfForward(b, movingImage, movingLabel, fixedImage, fixedSize), loss)
    case Conditional =>
      var pred := Squeeze(ApplyBackbone(b, ConditionalInput(movingImage, fixedImage, movingLabel, fixedSize)), 4);
      ModelSpec("CondRegModel", inputs, [pred], None, None, [], [])
    case Seg =>
      var pred := Squeeze(ApplyBackbone(b, SegInput(fixedImage)), 4);
      ModelSpec("SegModel", inputs, [pred], None, None, [], [])
  }

  /** The ddf and dvf models: named "DDFRegModel", output the warped moving
      label, expose the DDF (and the DVF), and carry the plan of
      `add_loss_metric` called without a fixed label and with an empty suffix. */
  function RegistrationSpec(inputs: seq<Tensor>, f: Forward, loss: LossConfig): ModelSpec
    requires |inputs| == 4
  {
    var p := Plan(loss, inputs[1], f.predImage, f.ddf, None, None, "");
    ModelSpec("DDFRegModel", inputs, [f.predLabel], Some(f.ddf), f.dvf, p.losses, p.metrics)
  }

  /** What `build_<m>_model` builds from the fixed-up backbone configuration:
      the backbone's error, or the model around the backbone. */
  function BuildWith(m: Method, backbone: map<string, Value>, local: LocalParams, unet: map<string, Value>,
                     movingSize: seq<int>, fixedSize: seq<int>, indexSize: int, batchSize: int,
                     loss: LossConfig): Result<ModelSpec>
    requires BackboneConfigured(backbone, local)
  {
    match SelectBackbone(backbone, local, unet, fixedSize, OutChannelsFor(m))
    case Err(e) => Err(e)
    case Ok(b) => Ok(ModelSpecFor(m, b, movingSize, fixedSize, indexSize, batchSize, loss))
  }

  /** `build_model` as a whole, given the configuration before the fix-up. */
  function BuildModelSpec(taskMethod: Value, backbone: map<string, Value>, local: LocalParams, unet: map<string, Value>,
                          movingSize: seq<int>, fixedSize: seq<int>, indexSize: int, batchSize: int,
                          loss: LossConfig): Result<ModelSpec>
    requires ParseMethod(taskMethod).Ok? ==> BackboneConfigured(backbone, local)
  {
    match ParseMethod(taskMethod)
    case Err(e) => Err(e)
    case Ok(m) =>
      var fixed := FixOutActivation(backbone);
      assert fixed["name"] == backbone["name"];
      BuildWith(m, fixed, local, unet, movingSize, fixedSize, indexSize, batchSize, loss)
  }

  /** The errors of `build_model`, in the order they are detected: an unknown
      method, then an unknown backbone name, then LocalNet's empty level list. */
  lemma BuildModelErrors(taskMethod: Value, backbone: map<string, Value>, local: LocalParams, unet: map<string, Value>,
                         movingSize: seq<int>, fixedSize: seq<int>, indexSize: int, batchSize: int, loss: LossConfig)
    requires ParseMethod(taskMethod).Ok? ==> BackboneConfigured(backbone, local)
    ensures var r := BuildModelSpec(taskMethod, backbone, local, unet, movingSize, fixedSize, indexSize, batchSize, loss);
      && (taskMethod !in {Str("ddf"), Str("dvf"), Str("conditional"), Str("seg")} ==> r == Err(ValueError("Unknown model method")))
      && (taskMethod in {Str("ddf"), Str("dvf"), Str("conditional"), Str("seg")} ==>
            var name := backbone["name"];
            && (name != Str("local") && name != Str("unet") ==> r == Err(ValueError("Unknown model name")))
            && (name == Str("local") && local.extractLevels == [] ==> r == Err(ValueError("max() arg is an empty sequence")))
            && (name == Str("unet") || (name == Str("local") && local.extractLevels != []) ==> r.Ok?))
  {
    if ParseMethod(taskMethod).Ok? {
      var fixed := FixOutActivation(backbone);
      assert fixed["name"] == backbone["name"];
    }
  }

  /** All four models take the same four inputs in the same order and output only the predicted fixed label. */
  lemma SharedInterface(m: Method, b: Backbone, movingSize: seq<int>, fixedSize: seq<int>, indexSize: int,
                        batchSize: int, loss: LossConfig)
    requires WellFormed(b)
    ensures var s := ModelSpecFor(m, b, movingSize, fixedSize, indexSize, batchSize, loss);
      && |s.inputs| == 4
      && s.inputs[0] == Input("moving_image", batchSize, movingSize)
      && s.inputs[1] == Input("fixed_image", batchSize, fixedSize)
      && s.inputs[2] == Input("moving_label", batchSize, movingSize)
      && s.inputs[3] == Input("indices", batchSize, [indexSize])
      && |s.outputs| == 1
      && (m == Conditional || m == Seg ==> s.outputs[0].Squeeze? && s.outputs[0].axis == 4)
  {
  }

  /** The backbone input has 2 channels for ddf and dvf, 3 for the conditional
      model and 1 for segmentation, on the fixed image's spatial shape. */
  lemma BackboneInputShapes(movingImage: Tensor, fixedImage: Tensor, movingLabel: Tensor,
                            batchSize: int, movingSize: seq<int>, fixedSize: seq<int>)
    requires |movingSize| == 3 && |fixedSize| == 3
    requires movingImage == Input("moving_image", batchSize, movingSize)
    requires movingLabel == Input("moving_label", batchSize, movingSize)
    requires fixedImage == Input("fixed_image", batchSize, fixedSize)
    ensures ShapeOf(RegistrationInput(movingImage, fixedImage, fixedSize)) == Some([batchSize] + fixedSize + [2])
    ensures ShapeOf(ConditionalInput(movingImage, fixedImage, movingLabel, fixedSize)) == Some([batchSize] + fixedSize + [3])
    ensures ShapeOf(SegInput(fixedImage)) == Some([batchSize] + fixedSize + [1])
  {
    var moving5 := Resize(fixedSize, ExpandDims(movingImage, 4));
    var label5 := Resize(fixedSize, ExpandDims(movingLabel, 4));
    var fixed5 := ExpandDims(fixedImage, 4);
    var m4, f4 := [batchSize] + movingSize, [batchSize] + fixedSize;
    assert m4[..4] == m4 && m4[4..] == [] && f4[..4] == f4 && f4[4..] == [];
    assert ShapeOf(movingImage) == ShapeOf(movingLabel) == Some(m4);
    assert ShapeOf(fixedImage) == Some(f4);
    assert m4[..4] + [1] + m4[4..] == m4 + [1] && f4[..4] + [1] + f4[4..] == f4 + [1];
    assert ShapeOf(ExpandDims(movingImage, 4)) == Some(m4 + [1]);
    assert ShapeOf(ExpandDims(movingLabel, 4)) == Some(m4 + [1]);
    var s := [batchSize] + fixedSize + [1];
    assert (m4 + [1])[0] == batchSize && (m4 + [1])[4] == 1;
    assert ShapeOf(fixed5) == Some(s);
    assert ShapeOf(moving5) == Some(s);
    assert ShapeOf(label5) == Some(s);
    assert s[..4] == f4 && s[5..] == [];
    assert ConcatShape([Some(s)], 4) == Some(s);
    var two := [batchSize] + fixedSize + [2];
    assert two[..4] == f4 && two[5..] == [];
    assert ConcatShape([Some(s), Some(s)], 4) == Some(two) by {
      assert [Some(s), Some(s)][1..] == [Some(s)];
      assert f4 + [2] + [] == two;
    }
    assert ConcatShape([Some(s), Some(s), Some(s)], 4) == Some([batchSize] + fixedSize + [3]) by {
      assert [Some(s), Some(s), Some(s)][1..] == [Some(s), Some(s)];
      assert f4 + [3] + [] == [batchSize] + fixedSize + [3];
    }
    var reg := [moving5, fixed5];
    assert seq(|reg|, i requires 0 <= i < |reg| => ShapeOf(reg[i])) == [Some(s), Some(s)];
    var cond := [moving5, fixed5, label5];
    assert seq(|cond|, i requires 0 <= i < |cond| => ShapeOf(cond[i])) == [Some(s), Some(s), Some(s)];
  }

  /** The ddf model warps with the backbone output itself; the dvf model warps
      with the integral of the backbone output. Both warp the moving image and
      the moving label with the same DDF, which is exposed as `model.ddf`. */
  lemma RegistrationWiring(b: Backbone, movingSize: seq<int>, fixedSize: seq<int>, indexSize: int,
                           batchSize: int, loss: LossConfig)
    requires WellFormed(b)
    ensures var inputs := ModelInputs(movingSize, fixedSize, indexSize, batchSize);
      var out := ApplyBackbone(b, RegistrationInput(inputs[0], inputs[1], fixedSize));
      var ddfModel := ModelSpecFor(Ddf, b, movingSize, fixedSize, indexSize, batchSize, loss);
      var dvfModel := ModelSpecFor(Dvf, b, movingSize, fixedSize, indexSize, batchSize, loss);
      && ddfModel.ddf == Some(out) && ddfModel.dvf == None
      && dvfModel.dvf == Some(out) && dvfModel.ddf == Some(IntDvf(fixedSize, out))
      && ddfModel.outputs == [Warp(fixedSize, ddfModel.ddf.value, inputs[2])]
      && dvfModel.outputs == [Warp(fixedSize, dvfModel.ddf.value, inputs[2])]
  {
  }

  /** The losses of a registration model: the image term compares the fixed
      image with the moving image warped by the model's DDF and is present only
      for a positive weight; the regularization of that DDF is always present;
      there is never a label loss, since both builders pass no fixed label. */
  lemma RegistrationLosses(m: Method, b: Backbone, movingSize: seq<int>, fixedSize: seq<int>, indexSize: int,
                           batchSize: int, loss: LossConfig)
    requires WellFormed(b) && (m == Ddf || m == Dvf)
    ensures var inputs := ModelInputs(movingSize, fixedSize, indexSize, batchSize);
      var s := ModelSpecFor(m, b, movingSize, fixedSize, indexSize, batchSize, loss);
      var ddf := s.ddf.value;
      && s.ddf.Some?
      && s.losses == (if loss.image.weight > 0.0
                      then [Scale(ImageLoss(loss, inputs[1], Warp(fixedSize, ddf, inputs[0])), loss.image.weight)]
                      else [])
                   + [Scale(RegularizationLoss(loss, ddf), loss.regularization.weight)]
      && "loss/label" !in MetricNames(s.metrics)
      && "loss/regularization" in MetricNames(s.metrics)
      && ("loss/image_similarity" in MetricNames(s.metrics) <==> loss.image.weight > 0.0)
  {
    var inputs := ModelInputs(movingSize, fixedSize, indexSize, batchSize);
    var s := ModelSpecFor(m, b, movingSize, fixedSize, indexSize, batchSize, loss);
    var f := if m == Ddf then DdfForward(b, inputs[0], inputs[2], inputs[1], fixedSize)
             else DvfForward(b, inputs[0], inputs[2], inputs[1], fixedSize);
    PlanMetricNames(loss, inputs[1], f.predImage, f.ddf, None, None, "");
    assert "loss/image_similarity"[5] != "loss/regularization"[5];
    assert "loss/image_similarity"[5] != "loss/weighted_regularization"[5];
    assert |"loss/image_similarity"| != |"loss/weighted_image_similarity"|;
    assert |"loss/label"| != |"loss/image_similarity"|;
    assert |"loss/label"| != |"loss/weighted_image_similarity"|;
    assert |"loss/label"| != |"loss/regularization"|;
    assert |"loss/label"| != |"loss/weighted_regularization"|;
    assert "loss/regularization" + "" == "loss/regularization";
    assert "loss/image_similarity" + "" == "loss/image_similarity";
  }

  // ---------------------------------------------------------------------------
  // The imperative side: the configuration dictionary and the Keras model

  /** `tf_model_config`. Only its "backbone" sub-dictionary is ever written. */
  class ModelConfig {
    var backbone: map<string, Value>
    const taskMethod: Value
    const local: LocalParams
    const unet: map<string, Value>

    constructor (backbone: map<string, Value>, taskMethod: Value, local: LocalParams, unet: map<string, Value>)
      ensures this.backbone == backbone && this.taskMethod == taskMethod && this.local == local && this.unet == unet
    {
      this.backbone := backbone;
      this.taskMethod := taskMethod;
      this.local := local;
      this.unet := unet;
    }
  }

  /** A Keras model whose loss and metric lists grow by `add_loss` and `add_metric`. */
  class KerasModel {
    const name: string
    const inputs: seq<Tensor>
    const outputs: seq<Tensor>
    var ddf: Option<Tensor>
    var dvf: Option<Tensor>
    var losses: seq<Tensor>
    var metrics: seq<Metric>

    constructor (inputs: seq<Tensor>, outputs: seq<Tensor>, name: string)
      ensures this.inputs == inputs && this.outputs == outputs && this.name == name
      ensures ddf == None && dvf == None && losses == [] && metrics == []
    {
      this.inputs := inputs;
      this.outputs := outputs;
      this.name := name;
      ddf, dvf := None, None;
      losses, metrics := [], [];
    }

    function Snapshot(): ModelSpec
      reads this
    {
      ModelSpec(name, inputs, outputs, ddf, dvf, losses, metrics)
    }

    method AddLoss(t: Tensor)
      modifies this`losses
      ensures losses == old(losses) + [t]
    {
      losses := losses + [t];
    }

    method AddMetric(value: Tensor, metricName: string, aggregation: string)
      modifies this`metrics
      ensures metrics == old(metrics) + [Metric(value, metricName, aggregation)]
    {
      metrics := metrics + [Metric(value, metricName, aggregation)];
    }
  }

  /** The description of a builder's outcome: its error, or the model it returned. */
  function Built(r: Result<KerasModel>): Result<ModelSpec>
    reads if r.Ok? then {r.value} else {}
  {
    match r
    case Err(e) => Err(e)
    case Ok(model) => Ok(model.Snapshot())
  }

  /** `build_backbone`: fixes the activation in the caller's dictionary, then dispatches on the name. */
  method BuildBackbone(imageSize: seq<int>, outChannels: int, cfg: ModelConfig) returns (r: Result<Backbone>)
    requires BackboneConfigured(cfg.backbone, cfg.local)
    modifies cfg
    ensures cfg.backbone == FixOutActivation(old(cfg.backbone))
    ensures BackboneConfigured(cfg.backbone, cfg.local)
    ensures r == SelectBackbone(cfg.backbone, cfg.local, cfg.unet, imageSize, outChannels)
  {
    if cfg.backbone["out_activation"] == Str("") {
      cfg.backbone := cfg.backbone["out_activation" := Null];
    }
    assert cfg.backbone["name"] == old(cfg.backbone)["name"];
    r := SelectBackbone(cfg.backbone, cfg.local, cfg.unet, imageSize, outChannels);
  }

  /** `add_loss_metric`: appends the planned losses and metrics to the model. */
  method AddLossMetric(model: KerasModel, loss: LossConfig, fixedImage: Tensor, predImage: Tensor, ddf: Tensor,
                       fixedLabel: Option<Tensor>, predLabel: Option<Tensor>, suffix: string)
    requires fixedLabel.Some? ==> predLabel.Some?
    modifies model`losses, model`metrics
    ensures var p := Plan(loss, fixedImage, predImage, ddf, fixedLabel, predLabel, suffix);
      model.losses == old(model.losses) + p.losses && model.metrics == old(model.metrics) + p.metrics
  {
    if loss.image.weight > 0.0 {
      var lossImage := ImageLoss(loss, fixedImage, predImage);
      var weightedLossImage := Scale(lossImage, loss.image.weight);
      model.AddLoss(weightedLossImage);
      model.AddMetric(lossImage, "loss/image_similarity" + suffix, "mean");
      model.AddMetric(weightedLossImage, "loss/weighted_image_similarity" + suffix, "mean");
    }
    var lossReg := RegularizationLoss(loss, ddf);
    var weightedLossReg := Scale(lossReg, loss.regularization.weight);
    model.AddLoss(weightedLossReg);
    model.AddMetric(lossReg, "loss/regularization" + suffix, "mean");
    model.AddMetric(weightedLossReg, "loss/weighted_regularization" + suffix, "mean");
    if fixedLabel.Some? {
      var lossLabel := LabelSimilarity(loss.labelParams, fixedLabel.value, predLabel.value);
      model.AddLoss(lossLabel);
      model.AddMetric(lossLabel, "loss/label" + suffix, "mean");
    }
  }

  method BuildDdfModel(movingSize: seq<int>, fixedSize: seq<int>, indexSize: int, batchSize: int,
                       cfg: ModelConfig, loss: LossConfig) returns (r: Result<KerasModel>)
    requires BackboneConfigured(cfg.backbone, cfg.local)
    modifies cfg
    ensures cfg.backbone == FixOutActivation(old(cfg.backbone))
    ensures BackboneConfigured(cfg.backbone, cfg.local)
    ensures r.Ok? ==> fresh(r.value)
    ensures Built(r) == BuildWith(Ddf, cfg.backbone, cfg.local, cfg.unet, movingSize, fixedSize, indexSize, batchSize, loss)
  {
    var inputs := ModelInputs(movingSize, fixedSize, indexSize, batchSize);
    var movingImage, fixedImage, movingLabel := inputs[0], inputs[1], inputs[2];
    var backbone := BuildBackbone(fixedSize, 3, cfg);
    if backbone.Err? {
      return Err(backbone.error);
    }
    var f := DdfForward(backbone.value, movingImage, movingLabel, fixedImage, fixedSize);
    var model := new KerasModel(inputs, [f.predLabel], "DDFRegModel");
    model.ddf := Some(f.ddf);
    AddLossMetric(model, loss, fixedImage, f.predImage, f.ddf, None, None, "");
    assert model.Snapshot() == RegistrationSpec(inputs, f, loss);
    r := Ok(model);
  }

  method BuildDvfModel(movingSize: seq<int>, fixedSize: seq<int>, indexSize: int, batchSize: int,
                       cfg: ModelConfig, loss: LossConfig) returns (r: Result<KerasModel>)
    requires BackboneConfigured(cfg.backbone, cfg.local)
    modifies cfg
    ensures cfg.backbone == FixOutActivation(old(cfg.backbone))
    ensures BackboneConfigured(cfg.backbone, cfg.local)
    ensures r.Ok? ==> fresh(r.value)
    ensures Built(r) == BuildWith(Dvf, cfg.backbone, cfg.local, cfg.unet, movingSize, fixedSize, indexSize, batchSize, loss)
  {
    var inputs := ModelInputs(movingSize, fixedSize, indexSize, batchSize);
    var movingImage, fixedImage, movingLabel := inputs[0], inputs[1], inputs[2];
    var backbone := BuildBackbone(fixedSize, 3, cfg);
    if backbone.Err? {
      return Err(backbone.error);
    }
    var f := DvfForward(backbone.value, movingImage, movingLabel, fixedImage, fixedSize);
    var model := new KerasModel(inputs, [f.predLabel], "DDFRegModel");
    model.dvf := f.dvf;
    model.ddf := Some(f.ddf);
    AddLossMetric(model, loss, fixedImage, f.predImage, f.ddf, None, None, "");
    assert model.Snapshot() == RegistrationSpec(inputs, f, loss);
    r := Ok(model);
  }

  method BuildCondModel(movingSize: seq<int>, fixedSize: seq<int>, indexSize: int, batchSize: int,
                        cfg: ModelConfig, loss: LossConfig) returns (r: Result<KerasModel>)
    requires BackboneConfigured(cfg.backbone, cfg.local)
    modifies cfg
    ensures cfg.backbone == FixOutActivation(old(cfg.backbone))
    ensures BackboneConfigured(cfg.backbone, cfg.local)
    ensures r.Ok? ==> fresh(r.value)
    ensures Built(r) == BuildWith(Conditional, cfg.backbone, cfg.local, cfg.unet, movingSize, fixedSize, indexSize, batchSize, loss)
  {
    var inputs := ModelInputs(movingSize, fixedSize, indexSize, batchSize);
    var movingImage, fixedImage, movingLabel := inputs[0], inputs[1], inputs[2];
    var backboneInput := ConditionalInput(movingImage, fixedImage, movingLabel, fixedSize);
    var backbone := BuildBackbone(fixedSize, 1, cfg);
    if backbone.Err? {
      return Err(backbone.error);
    }
    var pred := Squeeze(ApplyBackbone(backbone.value, backboneInput), 4);
    var model := new KerasModel(inputs, [pred], "CondRegModel");
    r := Ok(model);
  }

  method BuildSegModel(movingSize: seq<int>, fixedSize: seq<int>, indexSize: int, batchSize: int,
                       cfg: ModelConfig, loss: LossConfig) returns (r: Result<KerasModel>)
    requires BackboneConfigured(cfg.backbone, cfg.local)
    modifies cfg
    ensures cfg.backbone == FixOutActivation(old(cfg.backbone))
    ensures BackboneConfigured(cfg.backbone, cfg.local)
    ensures r.Ok? ==> fresh(r.value)
    ensures Built(r) == BuildWith(Seg, cfg.backbone, cfg.local, cfg.unet, movingSize, fixedSize, indexSize, batchSize, loss)
  {
    var inputs := ModelInputs(movingSize, fixedSize, indexSize, batchSize);
    var fixedImage := inputs[1];
    var backboneInput := SegInput(fixedImage);
    var backbone := BuildBackbone(fixedSize, 1, cfg);
    if backbone.Err? {
      return Err(backbone.error);
    }
    var pred := Squeeze(ApplyBackbone(backbone.value, backboneInput), 4);
    var model := new KerasModel(inputs, [pred], "SegModel");
    r := Ok(model);
  }

  /** `build_model`: dispatches on the method; an unknown method is rejected
      before the configuration is touched. */
  method BuildModel(movingSize: seq<int>, fixedSize: seq<int>, indexSize: int, batchSize: int,
                    cfg: ModelConfig, loss: LossConfig) returns (r: Result<KerasModel>)
    requires ParseMethod(cfg.taskMethod).Ok? ==> BackboneConfigured(cfg.backbone, cfg.local)
    modifies cfg
    ensures ParseMethod(cfg.taskMethod).Err? ==> cfg.backbone == old(cfg.backbone)
    ensures ParseMethod(cfg.taskMethod).Ok? ==> cfg.backbone == FixOutActivation(old(cfg.backbone))
    ensures r.Ok? ==> fresh(r.value)
    ensures Built(r) == BuildModelSpec(cfg.taskMethod, old(cfg.backbone), cfg.local, cfg.unet,
                                       movingSize, fixedSize, indexSize, batchSize, loss)
  {
    if cfg.taskMethod == Str("ddf") {
      assert ParseMethod(cfg.taskMethod) == Ok(Ddf);
      r := BuildDdfModel(movingSize, fixedSize, indexSize, batchSize, cfg, loss);
    } else if cfg.taskMethod == Str("dvf") {
      assert ParseMethod(cfg.taskMethod) == Ok(Dvf);
      r := BuildDvfModel(movingSize, fixedSize, indexSize, batchSize, cfg, loss);
    } else if cfg.taskMethod == Str("conditional") {
      assert ParseMethod(cfg.taskMethod) == Ok(Conditional);
      r := BuildCondModel(movingSize, fixedSize, indexSize, batchSize, cfg, loss);
    } else if cfg.taskMethod == Str("seg") {
      assert ParseMethod(cfg.taskMethod) == Ok(Seg);
      r := BuildSegModel(movingSize, fixedSize, indexSize, batchSize, cfg, loss);
    } else {
      r := Err(ValueError("Unknown model method"));
    }
  }
}
