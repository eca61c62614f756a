/**
 * prediction_preprocess (src/components/data_preprocessing.py:179-243): the
 * frame built from one web-form submission turned into one row of X.
 *
 * It shares the category maps with training but nothing else: the
 * reason_for_loan columns come from a fixed six-entry vocabulary, there is no
 * fraud rule, no first-time sentinel and no imputation, log1p skips
 * loan_coapplicant, and credit_score goes through the transformer saved by
 * training, which must exist.
 */
module Prediction {
  import opened Wrappers
  import opened Schema
  import opened Ratings
  import opened Frames
  import opened Preprocessing
  import opened Pipeline

  // ---------------------------------------------------------------------
  // Step 2: the reason columns (lines 182-187)
  // ---------------------------------------------------------------------

  /** The loop of lines 186-187: one cell per fixed reason, 1 for the selected one. */
  method ReasonCells(selected: string) returns (cells: seq<int>)
    ensures cells == Indicator(ReasonsForLoan, selected)
  {
    cells := [];
    for k := 0 to |ReasonsForLoan|
      invariant |cells| == k
      invariant forall j :: 0 <= j < k ==> cells[j] == (if ReasonsForLoan[j] == selected then 1 else 0)
    {
      cells := cells + [if ReasonsForLoan[k] == selected then 1 else 0];
    }
  }

  // ---------------------------------------------------------------------
  // Step 4: the category maps (lines 216-219)
  // ---------------------------------------------------------------------

  /** The category columns in the order lines 216-219 encode them. */
  datatype CategoryColumn = EducationColumn | UrbanColumn | AlternativeColumn | CoapplicantColumn

  function ColumnName(c: CategoryColumn): string
  {
    match c
    case EducationColumn => "education_level"
    case UrbanColumn => "urban_rural"
    case AlternativeColumn => "alternative_income_source"
    case CoapplicantColumn => "loan_coapplicant"
  }

  /** map(...) of a column on one row; None is the NaN that astype(int) rejects. */
  function Code(c: CategoryColumn, p: Application): Option<int>
  {
    match c
    case EducationColumn => EducationCode(p.educationLevel)
    case UrbanColumn => UrbanCode(p.urbanRural)
    case AlternativeColumn => YesNoCode(p.alternativeIncomeSource)
    case CoapplicantColumn => YesNoCode(p.loanCoapplicant)
  }

  predicate Encodable(p: Application)
  {
    && Code(EducationColumn, p).Some? && Code(UrbanColumn, p).Some?
    && Code(AlternativeColumn, p).Some? && Code(CoapplicantColumn, p).Some?
  }

  predicate Unmapped(df: seq<Application>, c: CategoryColumn)
  {
    exists i :: 0 <= i < |df| && Code(c, df[i]).None?
  }

  /** The first column, in the order of lines 216-219, whose astype(int) fails. */
  function FirstUnencodable(df: seq<Application>): (c: Option<CategoryColumn>)
    ensures c.None? <==> forall i :: 0 <= i < |df| ==> Encodable(df[i])
  {
    if Unmapped(df, EducationColumn) then Some(EducationColumn)
    else if Unmapped(df, UrbanColumn) then Some(UrbanColumn)
    else if Unmapped(df, AlternativeColumn) then Some(AlternativeColumn)
    else if Unmapped(df, CoapplicantColumn) then Some(CoapplicantColumn)
    else None
  }

  /** One line of 216-219: the codes of a column, or None when astype(int) fails. */
  method EncodeColumn(df: seq<Application>, c: CategoryColumn) returns (codes: Option<seq<int>>)
    ensures codes.None? <==> Unmapped(df, c)
    ensures codes.Some? ==> |codes.value| == |df| && forall i :: 0 <= i < |df| ==> Code(c, df[i]) == Some(codes.value[i])
  {
    var out: seq<int> := [];
    for i := 0 to |df|
      invariant |out| == i
      invariant forall j :: 0 <= j < i ==> Code(c, df[j]) == Some(out[j])
    {
      var code := Code(c, df[i]);
      if code.None? {
        return None;
      }
      out := out + [code.value];
    }
    return Some(out);
  }

  // ---------------------------------------------------------------------
  // Step 5: log1p (lines 222-224)
  // ---------------------------------------------------------------------

  /** The columns of the loop at line 222, in its order; loan_coapplicant is not among them. */
  datatype LogColumn = SavingsColumn | ExistingLoansColumn | LoanAmountColumn | PenaltiesColumn | NumPlatformsColumn

  const LogColumns: seq<LogColumn> := [SavingsColumn, ExistingLoansColumn, LoanAmountColumn, PenaltiesColumn, NumPlatformsColumn]

  /** df[col] = np.log1p(df[col]) on one row. */
  function LogOne(p: Application, c: LogColumn, log1p: real -> real): Application
  {
    match c
    case SavingsColumn => p.(savingsBalance := log1p(p.savingsBalance))
    case ExistingLoansColumn => p.(existingLoans := log1p(p.existingLoans))
    case LoanAmountColumn => p.(loanAmountRequested := log1p(p.loanAmountRequested))
    case PenaltiesColumn => p.(penalties := log1p(p.penalties))
    case NumPlatformsColumn => p.(numPlatforms := log1p(p.numPlatforms))
  }

  /** A row after the loop has visited the first n columns. */
  function LogFold(p: Application, n: nat, log1p: real -> real): Application
    requires n <= |LogColumns|
  {
    if n == 0 then p else LogOne(LogFold(p, n - 1, log1p), LogColumns[n - 1], log1p)
  }

  /** The frame after the loop has visited the first n columns. */
  function LogRows(df: seq<Application>, n: nat, log1p: real -> real): (rows: seq<Application>)
    requires n <= |LogColumns|
    ensures |rows| == |df|
  {
    seq(|df|, i requires 0 <= i < |df| => LogFold(df[i], n, log1p))
  }

  /** The loop of lines 222-224 over a frame held in an array. */
  method LogTransform(frame: array<Application>, log1p: real -> real)
    modifies frame
    ensures frame[..] == LogRows(old(frame[..]), |LogColumns|, log1p)
  {
    ghost var df := frame[..];
    for j := 0 to |LogColumns|
      invariant frame[..] == LogRows(df, j, log1p)
    {
      for i := 0 to frame.Length
        invariant forall k :: 0 <= k < i ==> frame[k] == LogFold(df[k], j + 1, log1p)
        invariant forall k :: i <= k < frame.Length ==> frame[k] == LogFold(df[k], j, log1p)
      {
        frame[i] := LogOne(frame[i], LogColumns[j], log1p);
      }
    }
  }

  /** After the loop exactly the five listed columns hold their log1p; every other field is as submitted. */
  lemma LogColumnsEffect(p: Application, log1p: real -> real)
    ensures LogFold(p, |LogColumns|, log1p) == p.(
      savingsBalance := log1p(p.savingsBalance),
      existingLoans := log1p(p.existingLoans),
      loanAmountRequested := log1p(p.loanAmountRequested),
      penalties := log1p(p.penalties),
      numPlatforms := log1p(p.numPlatforms))
  {
    assert LogFold(p, 1, log1p) == LogOne(p, SavingsColumn, log1p);
    assert LogFold(p, 2, log1p) == LogOne(LogFold(p, 1, log1p), ExistingLoansColumn, log1p);
    assert LogFold(p, 3, log1p) == LogOne(LogFold(p, 2, log1p), LoanAmountColumn, log1p);
    assert LogFold(p, 4, log1p) == LogOne(LogFold(p, 3, log1p), PenaltiesColumn, log1p);
  }

  // ---------------------------------------------------------------------
  // The whole function
  // ---------------------------------------------------------------------

  /** The output row built from a row after the log loop, its codes and the reason cells. */
  function PredictionRow(q: Application, education: int, urban: int, alternative: int, coapplicant: int,
                         dummies: seq<int>, pt: PowerTransformer, yj: (PowerTransformer, real) -> real, avg: real): FeatureRow
  {
    FeatureRow(
      education,
      q.numPlatforms,
      Some(q.workExperience),
      Some(q.monthlyIncome),
      Some(q.savingsBalance),
      Some(yj(pt, q.creditScore)),
      q.existingLoans,
      q.loanAmountRequested,
      Some(q.avgMonthlyExpenses),
      q.penalties,
      alternative,
      coapplicant as real,
      urban,
      q.familyDependents,
      dummies,
      [],
      avg,
      q.untouched)
  }

  /** The output row of one submitted row, given the reason of the first row. */
  function Predicted(p: Application, selected: string, log1p: real -> real, pt: PowerTransformer, yj: (PowerTransformer, real) -> real): FeatureRow
    requires Encodable(p)
  {
    PredictionRow(LogFold(p, |LogColumns|, log1p),
      Code(EducationColumn, p).value, Code(UrbanColumn, p).value,
      Code(AlternativeColumn, p).value, Code(CoapplicantColumn, p).value,
      Indicator(ReasonsForLoan, selected), pt, yj, AverageRating(p.platformRatings))
  }

  /**
   * prediction_preprocess as a function of the submitted frame and of the
   * transformer file. The errors come in the order the statements meet them:
   * iloc[0] of an empty frame, an astype(int), the missing transformer.
   */
  function PredictionSpec(df: seq<Application>, saved: Option<PowerTransformer>, log1p: real -> real,
                          yj: (PowerTransformer, real) -> real): Result<seq<FeatureRow>, PreprocessError>
  {
    if |df| == 0 then Err(EmptyInput)
    else
      match FirstUnencodable(df)
      case Some(c) => Err(NanToInt(ColumnName(c)))
      case None =>
        match saved
        case None => Err(TransformerNotFound)
        case Some(pt) => Ok(seq(|df|, i requires 0 <= i < |df| => Predicted(df[i], df[0].reasonForLoan, log1p, pt, yj)))
  }

  /** prediction_preprocess: the frame rewritten statement by statement. */
  method PredictionPreprocess(file: TransformerFile, df: seq<Application>, log1p: real -> real, yj: (PowerTransformer, real) -> real)
    returns (res: Result<seq<FeatureRow>, PreprocessError>)
    ensures res == PredictionSpec(df, file.saved, log1p, yj)
  {
    if |df| == 0 {
      return Err(EmptyInput);
    }
    var dummies := ReasonCells(df[0].reasonForLoan);
    var education := EncodeColumn(df, EducationColumn);
    if education.None? {
      return Err(NanToInt("education_level"));
    }
    var urban := EncodeColumn(df, UrbanColumn);
    if urban.None? {
      return Err(NanToInt("urban_rural"));
    }
    var alternative := EncodeColumn(df, AlternativeColumn);
    if alternative.None? {
      return Err(NanToInt("alternative_income_source"));
    }
    var coapplicant := EncodeColumn(df, CoapplicantColumn);
    if coapplicant.None? {
      return Err(NanToInt("loan_coapplicant"));
    }
    var frame := new Application[|df|](i requires 0 <= i < |df| => df[i]);
    assert frame[..] == df;
    LogTransform(frame, log1p);
    if file.saved.None? {
      return Err(TransformerNotFound);
    }
    var pt := file.saved.value;
    var rows := frame[..];
    var avgs := AverageColumn(rows);
    var out := seq(|df|, i requires 0 <= i < |df| =>
      PredictionRow(rows[i], education.value[i], urban.value[i], alternative.value[i], coapplicant.value[i], dummies, pt, yj, avgs[i]));
    assert FirstUnencodable(df).None?;
    PredictionRows(df, education.value, urban.value, alternative.value, coapplicant.value, dummies, avgs, pt, yj, log1p);
    return Ok(out);
  }

  /** The rows the statements of lines 216-234 build are the rows PredictionSpec describes. */
  lemma PredictionRows(df: seq<Application>, education: seq<int>, urban: seq<int>, alternative: seq<int>, coapplicant: seq<int>,
                       dummies: seq<int>, avgs: seq<real>, pt: PowerTransformer, yj: (PowerTransformer, real) -> real, log1p: real -> real)
    requires |df| > 0
    requires |education| == |urban| == |alternative| == |coapplicant| == |avgs| == |df|
    requires forall i :: 0 <= i < |df| ==> Code(EducationColumn, df[i]) == Some(education[i])
    requires forall i :: 0 <= i < |df| ==> Code(UrbanColumn, df[i]) == Some(urban[i])
    requires forall i :: 0 <= i < |df| ==> Code(AlternativeColumn, df[i]) == Some(alternative[i])
    requires forall i :: 0 <= i < |df| ==> Code(CoapplicantColumn, df[i]) == Some(coapplicant[i])
    requires dummies == Indicator(ReasonsForLoan, df[0].reasonForLoan)
    requires forall i :: 0 <= i < |df| ==> avgs[i] == AverageRating(LogRows(df, |LogColumns|, log1p)[i].platformRatings)
    ensures forall i :: 0 <= i < |df| ==> Encodable(df[i])
    ensures
      var rows := LogRows(df, |LogColumns|, log1p);
      seq(|df|, i requires 0 <= i < |df| =>
        PredictionRow(rows[i], education[i], urban[i], alternative[i], coapplicant[i], dummies, pt, yj, avgs[i]))
      == seq(|df|, i requires 0 <= i < |df| => Predicted(df[i], df[0].reasonForLoan, log1p, pt, yj))
  {
    var rows := LogRows(df, |LogColumns|, log1p);
    forall i | 0 <= i < |df|
      ensures Encodable(df[i])
      ensures PredictionRow(rows[i], education[i], urban[i], alternative[i], coapplicant[i], dummies, pt, yj, avgs[i])
        == Predicted(df[i], df[0].reasonForLoan, log1p, pt, yj)
    {
      LogColumnsEffect(df[i], log1p);
      assert rows[i] == LogFold(df[i], |LogColumns|, log1p);
    }
  }

  /** Line 234: calculate_average_platform_rating applied to the ratings string of every row. */
  method AverageColumn(rows: seq<Application>) returns (avgs: seq<real>)
    ensures |avgs| == |rows|
    ensures forall i :: 0 <= i < |rows| ==> avgs[i] == AverageRating(rows[i].platformRatings)
  {
    avgs := [];
    for i := 0 to |rows|
      invariant |avgs| == i
      invariant forall k :: 0 <= k < i ==> avgs[k] == AverageRating(rows[k].platformRatings)
    {
      var avg := CalculateAveragePlatformRating(rows[i].platformRatings);
      avgs := avgs + [avg];
    }
  }

  // ---------------------------------------------------------------------
  // Properties
  // ---------------------------------------------------------------------

  /**
   * The function fails exactly on an empty frame, an unmapped category or a
   * missing transformer, with the first of these that applies.
   */
  lemma PredictionErrors(df: seq<Application>, saved: Option<PowerTransformer>, log1p: real -> real, yj: (PowerTransformer, real) -> real)
    ensures PredictionSpec(df, saved, log1p, yj).Err? <==>
      |df| == 0 || (exists i :: 0 <= i < |df| && !Encodable(df[i])) || saved.None?
    ensures |df| == 0 ==> PredictionSpec(df, saved, log1p, yj) == Err(EmptyInput)
    ensures |df| > 0 && Unmapped(df, EducationColumn) ==> PredictionSpec(df, saved, log1p, yj) == Err(NanToInt("education_level"))
    ensures |df| > 0 && (forall i :: 0 <= i < |df| ==> Encodable(df[i])) && saved.None? ==>
      PredictionSpec(df, saved, log1p, yj) == Err(TransformerNotFound)
  {
  }

  /** A successful call has one output row per submitted row, each built from that row and the first row's reason. */
  lemma PredictionShape(df: seq<Application>, saved: Option<PowerTransformer>, log1p: real -> real, yj: (PowerTransformer, real) -> real)
    requires PredictionSpec(df, saved, log1p, yj).Ok?
    ensures |df| > 0 && saved.Some?
    ensures forall i :: 0 <= i < |df| ==> Encodable(df[i])
    ensures |PredictionSpec(df, saved, log1p, yj).value| == |df|
    ensures forall i :: 0 <= i < |df| ==>
      PredictionSpec(df, saved, log1p, yj).value[i] == Predicted(df[i], df[0].reasonForLoan, log1p, saved.value, yj)
  {
  }

  /**
   * Every output row carries exactly the six fixed reason columns, column k
   * set to 1 exactly when the first submitted row's reason is the k-th fixed
   * reason, and 0 otherwise.
   */
  lemma PredictionOneHot(df: seq<Application>, saved: Option<PowerTransformer>, log1p: real -> real, yj: (PowerTransformer, real) -> real)
    requires PredictionSpec(df, saved, log1p, yj).Ok?
    ensures var out := PredictionSpec(df, saved, log1p, yj).value;
      && |out| == |df|
      && forall i :: 0 <= i < |df| ==>
        && |out[i].reasonDummies| == 6
        && forall k :: 0 <= k < 6 ==>
          && (out[i].reasonDummies[k] == 1 <==> ReasonsForLoan[k] == df[0].reasonForLoan)
          && (out[i].reasonDummies[k] == 0 <==> ReasonsForLoan[k] != df[0].reasonForLoan)
  {
    PredictionShape(df, saved, log1p, yj);
  }

  /**
   * A reason outside the fixed six, "Business Expansion" (the category
   * get_dummies drops in training) among them, gives all-zero reason columns.
   */
  lemma UnknownReasonAllZero(df: seq<Application>, saved: Option<PowerTransformer>, log1p: real -> real, yj: (PowerTransformer, real) -> real)
    requires PredictionSpec(df, saved, log1p, yj).Ok?
    requires df[0].reasonForLoan !in ReasonsForLoan
    ensures forall i :: 0 <= i < |df| ==> PredictionSpec(df, saved, log1p, yj).value[i].reasonDummies == [0, 0, 0, 0, 0, 0]
  {
    PredictionOneHot(df, saved, log1p, yj);
    var out := PredictionSpec(df, saved, log1p, yj).value;
    forall i | 0 <= i < |df| ensures out[i].reasonDummies == [0, 0, 0, 0, 0, 0] {
      assert forall k :: 0 <= k < 6 ==> out[i].reasonDummies[k] == 0;
    }
  }

  lemma BusinessExpansionAllZero(df: seq<Application>, saved: Option<PowerTransformer>, log1p: real -> real, yj: (PowerTransformer, real) -> real)
    requires PredictionSpec(df, saved, log1p, yj).Ok?
    requires df[0].reasonForLoan == "Business Expansion"
    ensures forall i :: 0 <= i < |df| ==> PredictionSpec(df, saved, log1p, yj).value[i].reasonDummies == [0, 0, 0, 0, 0, 0]
  {
    UnknownReasonAllZero(df, saved, log1p, yj);
  }

  /**
   * What one output row holds: the submitted values of work experience,
   * income, expenses and dependents as they are (no imputation, no
   * zero-experience replacement), credit_score through the transformer
   * whatever the row's experience and loans (no first-time sentinel), log1p
   * on exactly the five listed columns, loan_coapplicant as its bare code,
   * the codes reading back as the submitted labels, and the average of the
   * ratings string.
   */
  lemma PredictedValues(p: Application, selected: string, log1p: real -> real, pt: PowerTransformer, yj: (PowerTransformer, real) -> real)
    requires Encodable(p)
    ensures var x := Predicted(p, selected, log1p, pt, yj);
      && x.workExperience == Some(p.workExperience) && x.monthlyIncome == Some(p.monthlyIncome)
      && x.avgMonthlyExpenses == Some(p.avgMonthlyExpenses) && x.familyDependents == p.familyDependents
      && x.creditScore == Some(yj(pt, p.creditScore))
      && x.savingsBalance == Some(log1p(p.savingsBalance)) && x.existingLoans == log1p(p.existingLoans)
      && x.loanAmountRequested == log1p(p.loanAmountRequested) && x.penalties == log1p(p.penalties)
      && x.numPlatforms == log1p(p.numPlatforms)
      && 0 <= x.educationLevel < 3 && EducationLevels[x.educationLevel] == p.educationLevel
      && 0 <= x.urbanRural < 2 && UrbanRuralLabels[x.urbanRural] == p.urbanRural
      && 0 <= x.alternativeIncomeSource < 2 && YesNoLabels[x.alternativeIncomeSource] == p.alternativeIncomeSource
      && (exists c :: 0 <= c < 2 && YesNoLabels[c] == p.loanCoapplicant && x.loanCoapplicant == c as real)
      && x.reasonDummies == Indicator(ReasonsForLoan, selected)
      && x.extraRatings == [] && x.avgPlatformRating == AverageRating(p.platformRatings)
      && x.untouched == p.untouched
  {
    LogColumnsEffect(p, log1p);
    var c := YesNoCode(p.loanCoapplicant).value;
    assert YesNoLabels[c] == p.loanCoapplicant;
  }

  /**
   * The same co-applicant label reaches the model differently on the two
   * paths: the training value is log1p of the prediction value.
   */
  lemma CoapplicantSkew(r: Row, avg: real, extras: seq<Option<(string, string)>>, p: Application, selected: string,
                        log1p: real -> real, pt: PowerTransformer, yj: (PowerTransformer, real) -> real)
    requires AllMapped(r) && Encodable(p)
    requires r.rec.loanCoapplicant == p.loanCoapplicant
    ensures TrainingFeatures(r, avg, extras, log1p).loanCoapplicant == log1p(Predicted(p, selected, log1p, pt, yj).loanCoapplicant)
  {
  }

  /** So for a "Yes" co-applicant the two paths disagree unless log1p(1) happens to be 1. */
  lemma CoapplicantYesDiffers(r: Row, avg: real, extras: seq<Option<(string, string)>>, p: Application, selected: string,
                              log1p: real -> real, pt: PowerTransformer, yj: (PowerTransformer, real) -> real)
    requires AllMapped(r) && Encodable(p)
    requires r.rec.loanCoapplicant == "Yes" && p.loanCoapplicant == "Yes"
    requires log1p(1.0) != 1.0
    ensures TrainingFeatures(r, avg, extras, log1p).loanCoapplicant != Predicted(p, selected, log1p, pt, yj).loanCoapplicant
  {
    CoapplicantSkew(r, avg, extras, p, selected, log1p, pt, yj);
  }

  /** After a successful training run, prediction applies the transformer fitted on the training X. */
  lemma PredictionUsesTrainingFit(d: Dataset, before: Option<PowerTransformer>, df: seq<Application>, log1p: real -> real,
                                  yj: (PowerTransformer, real) -> real)
    requires PredictionSpec(df, SavedFrom(Ok(d), before), log1p, yj).Ok?
    ensures forall i :: 0 <= i < |df| ==>
      PredictionSpec(df, SavedFrom(Ok(d), before), log1p, yj).value[i].creditScore == Some(yj(Fit(d.x), df[i].creditScore))
  {
    PredictionShape(df, SavedFrom(Ok(d), before), log1p, yj);
    forall i | 0 <= i < |df| ensures Predicted(df[i], df[0].reasonForLoan, log1p, Fit(d.x), yj).creditScore == Some(yj(Fit(d.x), df[i].creditScore)) {
      PredictedValues(df[i], df[0].reasonForLoan, log1p, Fit(d.x), yj);
    }
  }
}
