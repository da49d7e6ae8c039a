/** The path and step arithmetic of the training entry point (deepreg/train.py):
    the log directory, the checkpoint path check and the step counts passed to
    `model.fit`. The clock is a parameter: `timestamp` stands for
    `datetime.now().strftime("%Y%m%d-%H%M%S")`. */
module Train {
  import opened Graph

  /** `config["log_dir"]` without one trailing "/"; indexing `[-1]` of an empty string raises IndexError. */
  function NormalizeLogDir(logDir: string): (r: Result<string>)
    ensures r.Err? <==> logDir == ""
    ensures r.Err? ==> r.error == IndexError("string index out of range")
    ensures r.Ok? && logDir[|logDir| - 1] == '/' ==> logDir == r.value + "/"
    ensures r.Ok? && logDir[|logDir| - 1] != '/' ==> r.value == logDir
  {
    if logDir == "" then Err(IndexError("string index out of range"))
    else if logDir[|logDir| - 1] == '/' then Ok(logDir[..|logDir| - 1])
    else Ok(logDir)
  }

  /** Only one slash is removed: a directory ending in "//" keeps one of them. */
  lemma NormalizeRemovesOneSlash(base: string)
    ensures NormalizeLogDir(base + "//") == Ok(base + "/")
  {
    assert (base + "//")[..|base| + 1] == base + "/";
  }

  /** The log folder is the `--log` option when given, otherwise the timestamp. */
  function LogFolderName(log: string, timestamp: string): (r: string)
    ensures log != "" ==> r == log
    ensures log == "" ==> r == timestamp
  {
    if log != "" then log else timestamp
  }

  /** The final log directory: the normalised base, "/", the folder name. */
  function LogDir(configLogDir: string, log: string, timestamp: string): Result<string>
  {
    match NormalizeLogDir(configLogDir)
    case Err(e) => Err(e)
    case Ok(base) => Ok(base + "/" + LogFolderName(log, timestamp))
  }

  function EndsWith(s: string, suffix: string): bool {
    |suffix| <= |s| && s[|s| - |suffix|..] == suffix
  }

  /** A configured directory with or without its trailing slash gives the same log directory. */
  lemma LogDirIgnoresTrailingSlash(base: string, log: string, timestamp: string)
    requires base != "" && base[|base| - 1] != '/'
    ensures LogDir(base + "/", log, timestamp) == LogDir(base, log, timestamp)
    ensures LogDir(base, log, timestamp) == Ok(base + "/" + LogFolderName(log, timestamp))
  {
    assert (base + "/")[..|base|] == base;
  }

  /** The log directory ends with "/" and the chosen folder name. */
  lemma LogDirEndsWithFolder(configLogDir: string, log: string, timestamp: string)
    requires configLogDir != ""
    ensures LogDir(configLogDir, log, timestamp).Ok?
    ensures EndsWith(LogDir(configLogDir, log, timestamp).value, "/" + LogFolderName(log, timestamp))
  {
    var base := NormalizeLogDir(configLogDir).value;
    var folder := LogFolderName(log, timestamp);
    var d := base + "/" + folder;
    assert d == base + ("/" + folder);
    assert d[|d| - |"/" + folder|..] == "/" + folder;
  }

  /** The checkpoint to load: none for the empty path, the path itself when it
      ends with ".ckpt", and a ValueError otherwise. */
  function CheckpointToLoad(ckptPath: string): (r: Result<Option<string>>)
    ensures r.Err? <==> ckptPath != "" && !EndsWith(ckptPath, ".ckpt")
    ensures r.Err? ==> r.error == ValueError("checkpoint path should end with .ckpt")
    ensures r == Ok(None) <==> ckptPath == ""
    ensures r.Ok? && r.value.Some? ==> r.value.value == ckptPath
  {
    if ckptPath == "" then Ok(None)
    else if !EndsWith(ckptPath, ".ckpt") then Err(ValueError("checkpoint path should end with .ckpt"))
    else Ok(Some(ckptPath))
  }

  /** Any name followed by ".ckpt", ".ckpt" alone included, is loaded. */
  lemma CheckpointSuffixAccepted(stem: string)
    ensures CheckpointToLoad(stem + ".ckpt") == Ok(Some(stem + ".ckpt"))
  {
    var p := stem + ".ckpt";
    assert p[|p| - 5..] == ".ckpt";
  }

  /** Python's `//`: the floor of a / b. */
  function FloorDiv(a: int, b: int): (q: int)
    requires b != 0
    ensures b > 0 ==> b * q <= a < b * q + b
    ensures b < 0 ==> b * q + b < a <= b * q
  {
    if b > 0 then a / b else (-a) / (-b)
  }

  /** `dataset_size // batch_size`; a zero batch size raises ZeroDivisionError. */
  function StepCount(datasetSize: nat, batchSize: int): (r: Result<int>)
    ensures r.Err? <==> batchSize == 0
    ensures r.Err? ==> r.error == ZeroDivisionError("integer division or modulo by zero")
    ensures r.Ok? ==> r.value == FloorDiv(datasetSize, batchSize)
  {
    if batchSize == 0 then Err(ZeroDivisionError("integer division or modulo by zero"))
    else Ok(FloorDiv(datasetSize, batchSize))
  }

  /** With a positive batch size, an epoch has at most as many steps as samples,
      and the steps cover all samples but fewer than one batch. */
  lemma StepCountBounds(datasetSize: nat, batchSize: int)
    requires batchSize >= 1
    ensures StepCount(datasetSize, batchSize).Ok?
    ensures var steps := StepCount(datasetSize, batchSize).value;
      && 0 <= steps <= datasetSize
      && steps * batchSize <= datasetSize < (steps + 1) * batchSize
  {
    var steps := FloorDiv(datasetSize, batchSize);
    assert steps * batchSize <= datasetSize;
    assert steps >= 0;
    assert steps <= steps * batchSize;
  }

  /** What `main` derives from its options before training. */
  datatype RunPlan = RunPlan(logDir: string, checkpoint: Option<string>, stepsPerEpoch: int, validationSteps: int)

  /** The modelled part of `main`, with errors in source order: the log
      directory, then the checkpoint path, then the two step counts. */
  function PlanRun(configLogDir: string, log: string, timestamp: string, ckptPath: string,
                   datasetSizeTrain: nat, datasetSizeVal: nat, batchSize: int): Result<RunPlan>
  {
    match LogDir(configLogDir, log, timestamp)
    case Err(e) => Err(e)
    case Ok(dir) =>
      match CheckpointToLoad(ckptPath)
      case Err(e) => Err(e)
      case Ok(ckpt) =>
        match StepCount(datasetSizeTrain, batchSize)
        case Err(e) => Err(e)
        case Ok(steps) =>
          match StepCount(datasetSizeVal, batchSize)
          case Err(e) => Err(e)
          case Ok(validationSteps) => Ok(RunPlan(dir, ckpt, steps, validationSteps))
  }

  /** A run is planned exactly when the log directory is non-empty, the
      checkpoint path is empty or ends with ".ckpt", and the batch size is not
      zero; the first failing check decides the error. Weights are loaded
      only for a non-empty checkpoint path. */
  lemma PlanRunOutcome(configLogDir: string, log: string, timestamp: string, ckptPath: string,
                       datasetSizeTrain: nat, datasetSizeVal: nat, batchSize: int)
    ensures var r := PlanRun(configLogDir, log, timestamp, ckptPath, datasetSizeTrain, datasetSizeVal, batchSize);
      && (configLogDir == "" ==> r == Err(IndexError("string index out of range")))
      && (configLogDir != "" && ckptPath != "" && !EndsWith(ckptPath, ".ckpt") ==>
            r == Err(ValueError("checkpoint path should end with .ckpt")))
      && (configLogDir != "" && (ckptPath == "" || EndsWith(ckptPath, ".ckpt")) && batchSize == 0 ==>
            r == Err(ZeroDivisionError("integer division or modulo by zero")))
      && (r.Ok? <==> configLogDir != "" && (ckptPath == "" || EndsWith(ckptPath, ".ckpt")) && batchSize != 0)
      && (r.Ok? ==> (r.value.checkpoint.Some? <==> ckptPath != ""))
      && (r.Ok? ==> r.value.logDir == LogDir(configLogDir, log, timestamp).value)
  {
  }
}
