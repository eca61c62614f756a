/**
 * _base_preprocessing (src/components/data_preprocessing.py:39-126): the
 * preprocessing both the training and the test subset go through.
 *
 * The stages are written twice: as functions, one per block of the source
 * (BaseSpec composes them), and as the method BasePreprocessing, which
 * rewrites a working array statement by statement as the source rewrites
 * its frame and is proved to end where BaseSpec says.
 */
module Preprocessing {
  import opened Wrappers
  import opened Text
  import opened Stats
  import opened Schema
  import opened Frames
  import opened Ratings

  // ---------------------------------------------------------------------
  // Step 3: one-hot encoding of reason_for_loan, first category dropped
  // ---------------------------------------------------------------------

  function Reasons(df: seq<Applicant>): (rs: seq<string>)
    ensures |rs| == |df|
    ensures forall i :: 0 <= i < |df| ==> rs[i] == df[i].reasonForLoan
  {
    seq(|df|, i requires 0 <= i < |df| => df[i].reasonForLoan)
  }

  /** The dummy columns get_dummies(drop_first=True) creates: the sorted distinct reasons but the first. */
  function DummyVocab(df: seq<Applicant>): seq<string>
  {
    var cats := SortedDistinct(Reasons(df), LexLess);
    if |cats| == 0 then [] else cats[1..]
  }

  /** The frame after get_dummies: each row with its dummy cells; fraud_flag and first_time_applicant do not exist yet. */
  function Dummied(df: seq<Applicant>, vocab: seq<string>): (rows: seq<Row>)
    ensures |rows| == |df|
  {
    seq(|df|, i requires 0 <= i < |df| => Row(df[i], Indicator(vocab, df[i].reasonForLoan), 0, 0))
  }

  // ---------------------------------------------------------------------
  // Step 4: fraud rule, imputation by group, recombination
  // ---------------------------------------------------------------------

  /** Lines 55-56: labels of fraud rows forced to 0, then fraud_flag computed. */
  function FraudMarked(rows: seq<Row>): seq<Row>
  {
    ApplyAll(MarkFraud, ApplyAll(ZeroFraudLabels, rows))
  }

  /** fillna(median) on a column: the median of the values present at that moment. */
  function FillMedian(c: NumColumn, rows: seq<Row>): seq<Row>
  {
    ApplyAll(FillNa(c, Median(Present(rows, c))), rows)
  }

  /** Lines 63-66 on the non-fraud group: income and experience gaps, then zero experience, each from the group's current median. */
  function NonFraudImputed(nonFraud: seq<Row>): seq<Row>
  {
    var incomeFilled := FillMedian(MonthlyIncome, nonFraud);
    var workFilled := FillMedian(WorkExperience, incomeFilled);
    ApplyAll(ReplaceZero(WorkExperience, Median(Present(workFilled, WorkExperience))), workFilled)
  }

  /** Line 60 on the fraud group: missing income becomes 0. */
  function FraudImputed(fraud: seq<Row>): seq<Row>
  {
    ApplyAll(FillNa(MonthlyIncome, Some(0.0)), fraud)
  }

  /** Lines 58-68: the groups imputed separately and concatenated, non-fraud rows first. */
  function Recombined(marked: seq<Row>): seq<Row>
  {
    NonFraudImputed(Where(marked, 0)) + FraudImputed(Where(marked, 1))
  }

  // ---------------------------------------------------------------------
  // Steps 5 and 6: first-time applicants, median and mode fills
  // ---------------------------------------------------------------------

  /** Lines 71-72: first_time_applicant computed, then credit_score = -1 on those rows. */
  function CreditAdjusted(rows: seq<Row>): seq<Row>
  {
    ApplyAll(CreditSentinel, ApplyAll(MarkFirstTime, rows))
  }

  /** Lines 75-77: savings, expenses and credit score gaps, in that order. */
  function MediansFilled(rows: seq<Row>): seq<Row>
  {
    FillMedian(CreditScore, FillMedian(AvgMonthlyExpenses, FillMedian(SavingsBalance, rows)))
  }

  /** Lines 78-80: urban_rural, family_dependents, education_level gaps from mode()[0], which fails on a column with no value. */
  function ModesFilled(rows: seq<Row>): Result<seq<Row>, PreprocessError>
  {
    match FirstMode(PresentUrbanRural(rows), LexLess)
    case None => Err(EmptyColumnMode("urban_rural"))
    case Some(u) =>
      var withUrban := ApplyAll(FillUrbanRural(u), rows);
      match FirstMode(PresentDependents(withUrban), IntLess)
      case None => Err(EmptyColumnMode("family_dependents"))
      case Some(d) =>
        var withDependents := ApplyAll(FillDependents(d), withUrban);
        match FirstMode(PresentEducation(withDependents), LexLess)
        case None => Err(EmptyColumnMode("education_level"))
        case Some(e) => Ok(ApplyAll(FillEducation(e), withDependents))
  }

  // ---------------------------------------------------------------------
  // Step 7: platform ratings
  // ---------------------------------------------------------------------

  /**
   * What step 7 adds to every row: avg_platform_rating, the number of rating
   * columns past 2 and, per row, the cells of those columns.
   */
  datatype RatingsTable = RatingsTable(avg: seq<real>, extraColumns: nat, extras: seq<seq<Option<(string, string)>>>)

  /** The split cells of every row. */
  function CellsOf(rows: seq<Row>): (cells: seq<seq<string>>)
    ensures |cells| == |rows|
    ensures forall i :: 0 <= i < |rows| ==> cells[i] == RatingCells(rows[i].rec.platformRatings)
  {
    seq(|rows|, i requires 0 <= i < |rows| => RatingCells(rows[i].rec.platformRatings))
  }

  /** The number of columns split(expand=True) produces: the most cells of any row. */
  function MaxCells(cells: seq<seq<string>>): (k: nat)
    ensures forall i :: 0 <= i < |cells| ==> |cells[i]| <= k
    ensures |cells| == 0 ==> k == 0
    ensures |cells| > 0 ==> exists i :: 0 <= i < |cells| && |cells[i]| == k
  {
    if |cells| == 0 then 0
    else
      var front := MaxCells(cells[..|cells| - 1]);
      var last := |cells[|cells| - 1]|;
      if front < last then last else front
  }

  /** The one-pair dictionaries of every row, or None when some cell in any column is not one. */
  function AllPairs(cells: seq<seq<string>>): (pairs: Option<seq<seq<(string, string)>>>)
    ensures pairs.Some? ==> |pairs.value| == |cells|
    ensures pairs.Some? ==> forall i :: 0 <= i < |cells| ==> RowPairs(cells[i]) == Some(pairs.value[i])
  {
    if |cells| == 0 then Some([])
    else
      match AllPairs(cells[..|cells| - 1])
      case None => None
      case Some(front) =>
        match RowPairs(cells[|cells| - 1])
        case None => None
        case Some(last) => Some(front + [last])
  }

  /** avg_platform_rating of every row, or None when some value in columns 0-2 is not a number. */
  function RowAverages(pairs: seq<seq<(string, string)>>): (avgs: Option<seq<real>>)
    requires forall i :: 0 <= i < |pairs| ==> |pairs[i]| > 0
    ensures avgs.Some? ==> |avgs.value| == |pairs|
    ensures avgs.Some? ==> forall i :: 0 <= i < |pairs| ==> RowAverage(pairs[i]) == Some(avgs.value[i])
  {
    if |pairs| == 0 then Some([])
    else
      match RowAverages(pairs[..|pairs| - 1])
      case None => None
      case Some(front) =>
        match RowAverage(pairs[|pairs| - 1])
        case None => None
        case Some(last) => Some(front + [last])
  }

  /** The cells of columns 3 .. k-1 of one row; None for the padding of a row with fewer cells. */
  function ExtraCells(pairs: seq<(string, string)>, k: nat): (cells: seq<Option<(string, string)>>)
    requires k >= 3
    ensures |cells| == k - 3
  {
    seq(k - 3, j requires 0 <= j < k - 3 => if 3 + j < |pairs| then Some(pairs[3 + j]) else None)
  }

  /**
   * Lines 84-93. The errors come in the order pandas meets them: a cell
   * without exactly one ':' anywhere (the first applymap), then the missing
   * column 2 (the [[0,1,2]] selection), then a value float() rejects.
   */
  function RatingsStep(rows: seq<Row>): (r: Result<RatingsTable, PreprocessError>)
    ensures r.Ok? ==> |r.value.avg| == |rows| && |r.value.extras| == |rows|
  {
    var cells := CellsOf(rows);
    var k := MaxCells(cells);
    match AllPairs(cells)
    case None => Err(MalformedRatingItem)
    case Some(pairs) =>
      if k < 3 then Err(TooFewRatingColumns)
      else
        assert forall i :: 0 <= i < |pairs| ==> |pairs[i]| > 0 by {
          forall i | 0 <= i < |pairs| ensures |pairs[i]| > 0 {
            assert RowPairs(cells[i]) == Some(pairs[i]);
          }
        }
        match RowAverages(pairs)
        case None => Err(UnparseableRating)
        case Some(avgs) =>
          Ok(RatingsTable(avgs, k - 3, seq(|pairs|, i requires 0 <= i < |pairs| => ExtraCells(pairs[i], k))))
  }

  // ---------------------------------------------------------------------
  // Steps 8-12: drop, encode, log-transform, split
  // ---------------------------------------------------------------------

  predicate EducationMapped(r: Row) { r.rec.educationLevel.Some? && EducationCode(r.rec.educationLevel.value).Some? }
  predicate AlternativeMapped(r: Row) { YesNoCode(r.rec.alternativeIncomeSource).Some? }
  predicate CoapplicantMapped(r: Row) { YesNoCode(r.rec.loanCoapplicant).Some? }
  predicate UrbanMapped(r: Row) { r.rec.urbanRural.Some? && UrbanCode(r.rec.urbanRural.value).Some? }
  predicate DependentsPresent(r: Row) { r.rec.familyDependents.Some? }

  predicate AllMapped(r: Row)
  {
    EducationMapped(r) && AlternativeMapped(r) && CoapplicantMapped(r) && UrbanMapped(r) && DependentsPresent(r)
  }

  /**
   * The astype(int) calls of lines 103-107, in their order: the first column
   * holding a value its map does not know (a NaN) fails.
   */
  function FirstUnmapped(rows: seq<Row>): Option<string>
  {
    if exists i :: 0 <= i < |rows| && !EducationMapped(rows[i]) then Some("education_level")
    else if exists i :: 0 <= i < |rows| && !AlternativeMapped(rows[i]) then Some("alternative_income_source")
    else if exists i :: 0 <= i < |rows| && !CoapplicantMapped(rows[i]) then Some("loan_coapplicant")
    else if exists i :: 0 <= i < |rows| && !UrbanMapped(rows[i]) then Some("urban_rural")
    else if exists i :: 0 <= i < |rows| && !DependentsPresent(rows[i]) then Some("family_dependents")
    else None
  }

  /** One row of X: codes from the fixed maps, log1p on the six skewed columns, the rating columns appended. */
  function TrainingFeatures(r: Row, avg: real, extras: seq<Option<(string, string)>>, log1p: real -> real): FeatureRow
    requires AllMapped(r)
  {
    var a := r.rec;
    FeatureRow(
      EducationCode(a.educationLevel.value).value,
      log1p(a.numPlatforms),
      a.workExperience,
      a.monthlyIncome,
      MapOption(log1p, a.savingsBalance),
      a.creditScore,
      log1p(a.existingLoans),
      log1p(a.loanAmountRequested),
      a.avgMonthlyExpenses,
      log1p(a.penalties),
      YesNoCode(a.alternativeIncomeSource).value,
      log1p(YesNoCode(a.loanCoapplicant).value as real),
      UrbanCode(a.urbanRural.value).value,
      a.familyDependents.value,
      r.dummies,
      extras,
      avg,
      a.untouched)
  }

  /** loan_approved of every row, in order. */
  function Labels(rows: seq<Row>): (y: seq<int>)
    ensures |y| == |rows|
    ensures forall i :: 0 <= i < |rows| ==> y[i] == rows[i].rec.loanApproved
  {
    seq(|rows|, i requires 0 <= i < |rows| => rows[i].rec.loanApproved)
  }

  /** The features and the target, or the failing astype(int). */
  function Encoded(rows: seq<Row>, t: RatingsTable, log1p: real -> real): Result<(seq<FeatureRow>, seq<int>), PreprocessError>
    requires |t.avg| == |rows| && |t.extras| == |rows|
  {
    match FirstUnmapped(rows)
    case Some(column) => Err(NanToInt(column))
    case None =>
      Ok((seq(|rows|, i requires 0 <= i < |rows| => TrainingFeatures(rows[i], t.avg[i], t.extras[i], log1p)), Labels(rows)))
  }

  /** What _base_preprocessing returns: the dummy vocabulary, the extra rating columns, X and y. */
  datatype Dataset = Dataset(vocab: seq<string>, extraColumns: nat, x: seq<FeatureRow>, y: seq<int>)

  /** The rows after steps 3-6, before the first step that can fail. */
  function Imputed(df: seq<Applicant>): seq<Row>
  {
    MediansFilled(CreditAdjusted(Recombined(FraudMarked(Dummied(df, DummyVocab(df))))))
  }

  /** _base_preprocessing as a composition of its steps. */
  function BaseSpec(df: seq<Applicant>, log1p: real -> real): Result<Dataset, PreprocessError>
  {
    Finished(Imputed(df), DummyVocab(df), log1p)
  }

  /** Steps 7-10 (mode fill, ratings, encoding) on the imputed rows. */
  function Finished(imputed: seq<Row>, vocab: seq<string>, log1p: real -> real): Result<Dataset, PreprocessError>
  {
    match ModesFilled(imputed)
    case Err(e) => Err(e)
    case Ok(rows) =>
      match RatingsStep(rows)
      case Err(e) => Err(e)
      case Ok(t) =>
        match Encoded(rows, t, log1p)
        case Err(e) => Err(e)
        case Ok(xy) => Ok(Dataset(vocab, t.extraColumns, xy.0, xy.1))
  }

  // ---------------------------------------------------------------------
  // The statement-by-statement version
  // ---------------------------------------------------------------------

  /** Lines 62-66 in place on the non-fraud copy. */
  method ImputeNonFraud(rows: array<Row>)
    modifies rows
    ensures rows[..] == NonFraudImputed(old(rows[..]))
  {
    ApplyInPlace(rows, FillNa(MonthlyIncome, Median(Present(rows[..], MonthlyIncome))));
    ApplyInPlace(rows, FillNa(WorkExperience, Median(Present(rows[..], WorkExperience))));
    ApplyInPlace(rows, ReplaceZero(WorkExperience, Median(Present(rows[..], WorkExperience))));
  }

  /** Lines 71-77 in place on the recombined frame. */
  method AdjustAndFillMedians(rows: array<Row>)
    modifies rows
    ensures rows[..] == MediansFilled(CreditAdjusted(old(rows[..])))
  {
    ApplyInPlace(rows, MarkFirstTime);
    ApplyInPlace(rows, CreditSentinel);
    ApplyInPlace(rows, FillNa(SavingsBalance, Median(Present(rows[..], SavingsBalance))));
    ApplyInPlace(rows, FillNa(AvgMonthlyExpenses, Median(Present(rows[..], AvgMonthlyExpenses))));
    ApplyInPlace(rows, FillNa(CreditScore, Median(Present(rows[..], CreditScore))));
  }

  /** Lines 78-80 in place; an error leaves the frame part-filled, as the raising statement does. */
  method FillModes(rows: array<Row>) returns (err: Option<PreprocessError>)
    modifies rows
    ensures err.None? <==> ModesFilled(old(rows[..])).Ok?
    ensures err.Some? ==> ModesFilled(old(rows[..])) == Err(err.value)
    ensures err.None? ==> rows[..] == ModesFilled(old(rows[..])).value
  {
    var urban := FirstMode(PresentUrbanRural(rows[..]), LexLess);
    if urban.None? {
      return Some(EmptyColumnMode("urban_rural"));
    }
    ApplyInPlace(rows, FillUrbanRural(urban.value));
    var dependents := FirstMode(PresentDependents(rows[..]), IntLess);
    if dependents.None? {
      return Some(EmptyColumnMode("family_dependents"));
    }
    ApplyInPlace(rows, FillDependents(dependents.value));
    var education := FirstMode(PresentEducation(rows[..]), LexLess);
    if education.None? {
      return Some(EmptyColumnMode("education_level"));
    }
    ApplyInPlace(rows, FillEducation(education.value));
    return None;
  }

  /** _base_preprocessing: the frame rewritten step by step. */
  method BasePreprocessing(df: seq<Applicant>, log1p: real -> real) returns (res: Result<Dataset, PreprocessError>)
    ensures res == BaseSpec(df, log1p)
  {
    var vocab := DummyVocab(df);
    var frame := FromSeq(Dummied(df, vocab));
    ApplyInPlace(frame, ZeroFraudLabels);
    ApplyInPlace(frame, MarkFraud);
    ghost var marked := frame[..];
    assert marked == FraudMarked(Dummied(df, vocab));
    var nonFraudRows := Select(frame, 0);
    var fraudRows := Select(frame, 1);
    var nonFraud := FromSeq(nonFraudRows);
    var fraud := FromSeq(fraudRows);
    ApplyInPlace(fraud, FillNa(MonthlyIncome, Some(0.0)));
    ImputeNonFraud(nonFraud);
    var combined := FromSeq(nonFraud[..] + fraud[..]);
    assert combined[..] == Recombined(marked);
    AdjustAndFillMedians(combined);
    assert combined[..] == Imputed(df);
    var err := FillModes(combined);
    if err.Some? {
      return Err(err.value);
    }
    var table := RatingsStep(combined[..]);
    if table.Err? {
      return Err(table.error);
    }
    var t := table.value;
    var xy := Encoded(combined[..], t, log1p);
    if xy.Err? {
      return Err(xy.error);
    }
    return Ok(Dataset(vocab, t.extraColumns, xy.value.0, xy.value.1));
  }
}
