/**
 * preprocess_train, preprocess_test and preprocess_pipeline
 * (src/components/data_preprocessing.py:128-177): each subset goes through
 * _base_preprocessing on its own, so its medians and modes are its own, and
 * only the Yeo-Johnson transform of credit_score is fitted once, on the
 * training X, saved, and reused for the test subset.
 *
 * The transformer is opaque. A fitted transformer is represented by the
 * column it was fitted on, and applying it is the parameter yj; SMOTE is the
 * parameter smote, None when it refuses the training set. The saved
 * transformer file is the object TransformerFile.
 */
module Pipeline {
  import opened Wrappers
  import opened Schema
  import opened Preprocessing

  /** A PowerTransformer(method='yeo-johnson') after fit: what it was fitted on. */
  datatype PowerTransformer = PowerTransformer(fittedOn: seq<Option<real>>)

  /** The credit_score column of X. */
  function CreditColumn(x: seq<FeatureRow>): (col: seq<Option<real>>)
    ensures |col| == |x|
    ensures forall i :: 0 <= i < |x| ==> col[i] == x[i].creditScore
  {
    seq(|x|, i requires 0 <= i < |x| => x[i].creditScore)
  }

  /** PowerTransformer().fit(X[['credit_score']]). */
  function Fit(x: seq<FeatureRow>): PowerTransformer
  {
    PowerTransformer(CreditColumn(x))
  }

  /** X['credit_score'] = pt.transform(X[['credit_score']]); a NaN cell stays NaN. */
  function Transformed(pt: PowerTransformer, x: seq<FeatureRow>, yj: (PowerTransformer, real) -> real): (t: seq<FeatureRow>)
    ensures |t| == |x|
    ensures forall i :: 0 <= i < |x| ==>
      && t[i].(creditScore := x[i].creditScore) == x[i]
      && (t[i].creditScore.Some? <==> x[i].creditScore.Some?)
      && (x[i].creditScore.Some? ==> t[i].creditScore.value == yj(pt, x[i].creditScore.value))
  {
    seq(|x|, i requires 0 <= i < |x| => x[i].(creditScore := MapOption(c => yj(pt, c), x[i].creditScore)))
  }

  /** What preprocess_train returns: X, y and the fitted transformer. */
  datatype TrainOutput = TrainOutput(x: seq<FeatureRow>, y: seq<int>, pt: PowerTransformer)

  /** preprocess_train after the base preprocessing: fit on X, transform, then optionally resample. */
  function TrainFrom(base: Result<Dataset, PreprocessError>, applySmote: bool, yj: (PowerTransformer, real) -> real,
                     smote: (seq<FeatureRow>, seq<int>) -> Option<(seq<FeatureRow>, seq<int>)>): Result<TrainOutput, PreprocessError>
  {
    match base
    case Err(e) => Err(e)
    case Ok(d) =>
      var pt := Fit(d.x);
      var x := Transformed(pt, d.x, yj);
      if !applySmote then Ok(TrainOutput(x, d.y, pt))
      else
        match smote(x, d.y)
        case None => Err(ResamplingFailed)
        case Some(xy) => Ok(TrainOutput(xy.0, xy.1, pt))
  }

  /** preprocess_test after the base preprocessing of the test subset: the given transformer applied to credit_score. */
  function TestFrom(base: Result<Dataset, PreprocessError>, pt: PowerTransformer, yj: (PowerTransformer, real) -> real): Result<(seq<FeatureRow>, seq<int>), PreprocessError>
  {
    match base
    case Err(e) => Err(e)
    case Ok(d) => Ok((Transformed(pt, d.x, yj), d.y))
  }

  /**
   * preprocess_pipeline after the split, given what the base preprocessing
   * makes of each subset: train first, then test with the training
   * transformer.
   */
  function PipelineFrom(trainBase: Result<Dataset, PreprocessError>, testBase: Result<Dataset, PreprocessError>, applySmote: bool,
                        yj: (PowerTransformer, real) -> real,
                        smote: (seq<FeatureRow>, seq<int>) -> Option<(seq<FeatureRow>, seq<int>)>): Result<(seq<FeatureRow>, seq<int>, seq<FeatureRow>, seq<int>), PreprocessError>
  {
    match TrainFrom(trainBase, applySmote, yj, smote)
    case Err(e) => Err(e)
    case Ok(tr) =>
      match TestFrom(testBase, tr.pt, yj)
      case Err(e) => Err(e)
      case Ok(te) => Ok((tr.x, tr.y, te.0, te.1))
  }

  /** The file joblib.dump writes the transformer to and prediction loads it from. */
  class TransformerFile {
    var saved: Option<PowerTransformer>

    constructor(initial: Option<PowerTransformer>)
      ensures saved == initial
    {
      saved := initial;
    }

    /** joblib.dump(pt, transformer_path). */
    method Dump(pt: PowerTransformer)
      modifies this
      ensures saved == Some(pt)
    {
      saved := Some(pt);
    }
  }

  /** The transformer file after a training run: written once the base preprocessing succeeds, before SMOTE runs. */
  function SavedFrom(base: Result<Dataset, PreprocessError>, before: Option<PowerTransformer>): Option<PowerTransformer>
  {
    match base
    case Err(_) => before
    case Ok(d) => Some(Fit(d.x))
  }

  /** preprocess_train: the base preprocessing, then lines 139-149 on its result. */
  method PreprocessTrain(file: TransformerFile, df: seq<Applicant>, applySmote: bool, log1p: real -> real,
                         yj: (PowerTransformer, real) -> real,
                         smote: (seq<FeatureRow>, seq<int>) -> Option<(seq<FeatureRow>, seq<int>)>)
    returns (res: Result<TrainOutput, PreprocessError>)
    modifies file
    ensures res == TrainFrom(BaseSpec(df, log1p), applySmote, yj, smote)
    ensures file.saved == SavedFrom(BaseSpec(df, log1p), old(file.saved))
  {
    var base := BasePreprocessing(df, log1p);
    if base.Err? {
      return Err(base.error);
    }
    res := FitSaveResample(file, base.value, applySmote, yj, smote);
  }

  /** Lines 139-149: fit on credit_score, transform it, save the transformer, then resample if asked. */
  method FitSaveResample(file: TransformerFile, d: Dataset, applySmote: bool, yj: (PowerTransformer, real) -> real,
                         smote: (seq<FeatureRow>, seq<int>) -> Option<(seq<FeatureRow>, seq<int>)>)
    returns (res: Result<TrainOutput, PreprocessError>)
    modifies file
    ensures res == TrainFrom(Ok(d), applySmote, yj, smote)
    ensures file.saved == Some(Fit(d.x))
  {
    var pt := Fit(d.x);
    var x := Transformed(pt, d.x, yj);
    var y := d.y;
    file.Dump(pt);
    if applySmote {
      var resampled := smote(x, y);
      if resampled.None? {
        return Err(ResamplingFailed);
      }
      x, y := resampled.value.0, resampled.value.1;
    }
    return Ok(TrainOutput(x, y, pt));
  }

  method PreprocessTest(df: seq<Applicant>, pt: PowerTransformer, log1p: real -> real, yj: (PowerTransformer, real) -> real)
    returns (res: Result<(seq<FeatureRow>, seq<int>), PreprocessError>)
    ensures res == TestFrom(BaseSpec(df, log1p), pt, yj)
  {
    var base := BasePreprocessing(df, log1p);
    if base.Err? {
      return Err(base.error);
    }
    return Ok((Transformed(pt, base.value.x, yj), base.value.y));
  }

  /** preprocess_pipeline, given the two subsets train_test_split produced. */
  method PreprocessPipeline(file: TransformerFile, train: seq<Applicant>, test: seq<Applicant>, applySmote: bool,
                            log1p: real -> real, yj: (PowerTransformer, real) -> real,
                            smote: (seq<FeatureRow>, seq<int>) -> Option<(seq<FeatureRow>, seq<int>)>)
    returns (res: Result<(seq<FeatureRow>, seq<int>, seq<FeatureRow>, seq<int>), PreprocessError>)
    modifies file
    ensures res == PipelineFrom(BaseSpec(train, log1p), BaseSpec(test, log1p), applySmote, yj, smote)
    ensures file.saved == SavedFrom(BaseSpec(train, log1p), old(file.saved))
  {
    var tr := PreprocessTrain(file, train, applySmote, log1p, yj, smote);
    if tr.Err? {
      return Err(tr.error);
    }
    var te := PreprocessTest(test, tr.value.pt, log1p, yj);
    if te.Err? {
      return Err(te.error);
    }
    return Ok((tr.value.x, tr.value.y, te.value.0, te.value.1));
  }

  // ---------------------------------------------------------------------
  // Fit once, apply everywhere
  // ---------------------------------------------------------------------

  /**
   * The transformer preprocess_train returns is the one fitted on the
   * training X, and it is the one left in the file, whether SMOTE then
   * succeeds or not; training fails exactly when the base preprocessing or
   * the requested SMOTE does.
   */
  lemma TrainFitsOnTrainingX(base: Result<Dataset, PreprocessError>, applySmote: bool, yj: (PowerTransformer, real) -> real,
                             smote: (seq<FeatureRow>, seq<int>) -> Option<(seq<FeatureRow>, seq<int>)>, before: Option<PowerTransformer>)
    ensures TrainFrom(base, applySmote, yj, smote).Ok? ==>
      && base.Ok?
      && TrainFrom(base, applySmote, yj, smote).value.pt.fittedOn == CreditColumn(base.value.x)
      && SavedFrom(base, before) == Some(TrainFrom(base, applySmote, yj, smote).value.pt)
    ensures base.Ok? ==> SavedFrom(base, before) == Some(Fit(base.value.x))
    ensures TrainFrom(base, applySmote, yj, smote).Err? <==>
      base.Err? || (applySmote && smote(Transformed(Fit(base.value.x), base.value.x, yj), base.value.y).None?)
  {
  }

  /** Without SMOTE, training keeps the rows and labels of the base preprocessing and changes only credit_score. */
  lemma TrainWithoutSmote(base: Result<Dataset, PreprocessError>, yj: (PowerTransformer, real) -> real,
                          smote: (seq<FeatureRow>, seq<int>) -> Option<(seq<FeatureRow>, seq<int>)>)
    requires TrainFrom(base, false, yj, smote).Ok?
    ensures base.Ok?
    ensures var d, t := base.value, TrainFrom(base, false, yj, smote).value;
      && t.y == d.y && |t.x| == |d.x|
      && forall i :: 0 <= i < |d.x| ==> t.x[i].(creditScore := d.x[i].creditScore) == d.x[i]
  {
  }

  /**
   * The test output depends on the training subset only through the credit
   * column of the training X: two training results with the same credit
   * column give the same test X and y. Everything else in the test output,
   * its medians and modes included, comes from the test subset alone.
   */
  lemma TestSeesOnlyTrainingTransformer(train1: Result<Dataset, PreprocessError>, train2: Result<Dataset, PreprocessError>,
                                        testBase: Result<Dataset, PreprocessError>, applySmote: bool, yj: (PowerTransformer, real) -> real,
                                        smote: (seq<FeatureRow>, seq<int>) -> Option<(seq<FeatureRow>, seq<int>)>)
    requires PipelineFrom(train1, testBase, applySmote, yj, smote).Ok?
    requires PipelineFrom(train2, testBase, applySmote, yj, smote).Ok?
    requires CreditColumn(train1.value.x) == CreditColumn(train2.value.x)
    ensures PipelineFrom(train1, testBase, applySmote, yj, smote).value.2 == PipelineFrom(train2, testBase, applySmote, yj, smote).value.2
    ensures PipelineFrom(train1, testBase, applySmote, yj, smote).value.3 == PipelineFrom(train2, testBase, applySmote, yj, smote).value.3
  {
  }

  /**
   * The test X is the test subset's own base preprocessing with credit_score
   * put through the transformer fitted on the training X, and the test y is
   * its own labels.
   */
  lemma TestUsesTrainingFit(trainBase: Result<Dataset, PreprocessError>, testBase: Result<Dataset, PreprocessError>, applySmote: bool,
                            yj: (PowerTransformer, real) -> real,
                            smote: (seq<FeatureRow>, seq<int>) -> Option<(seq<FeatureRow>, seq<int>)>)
    requires PipelineFrom(trainBase, testBase, applySmote, yj, smote).Ok?
    ensures trainBase.Ok? && testBase.Ok?
    ensures var out, d := PipelineFrom(trainBase, testBase, applySmote, yj, smote).value, testBase.value;
      && out.3 == d.y && |out.2| == |d.x|
      && forall i :: 0 <= i < |d.x| ==>
        && out.2[i].(creditScore := d.x[i].creditScore) == d.x[i]
        && (d.x[i].creditScore.Some? ==> out.2[i].creditScore == Some(yj(Fit(trainBase.value.x), d.x[i].creditScore.value)))
  {
  }
}
